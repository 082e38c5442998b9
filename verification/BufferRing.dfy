/** The buffer list of kernel/bio.c: an array of buffers threaded on a circular
    doubly linked list in most-recently-used order.  A buffer is named by its index;
    index NBUF stands for &bcache.head. */
module BufferRing {
  import opened Collections
  import opened Params

  type Block = seq<int>
  const HEAD: nat := NBUF

  datatype Buf = Buf(valid: bool, dev: nat, blockno: nat, refcnt: nat, prev: nat, next: nat, data: Block)

  // ---------------------------------------------------------------- rings

  // The list written out: the head, the buffers of order, the head again.
  function At(order: seq<nat>, i: nat): (r: nat)
    requires i <= |order| + 1
  {
    if i == 0 || i == |order| + 1 then HEAD else order[i - 1]
  }

  ghost predicate Distinct(order: seq<nat>) {
    && (forall i :: 0 <= i < |order| ==> order[i] < NBUF)
    && (forall i, j :: 0 <= i < j < |order| ==> order[i] != order[j])
  }

  // Following next from the head visits order and returns; prev is the way back.
  ghost predicate Ring(buf: seq<Buf>, order: seq<nat>) {
    && |buf| == NBUF + 1 && Distinct(order)
    && (forall i :: 0 <= i <= |order| ==> buf[At(order, i)].next == At(order, i + 1))
    && (forall i :: 0 <= i <= |order| ==> buf[At(order, i + 1)].prev == At(order, i))
  }

  function Without(order: seq<nat>, k: nat): (r: seq<nat>)
    requires k < |order|
  {
    order[..k] + order[k + 1..]
  }

  function SetNext(buf: seq<Buf>, i: nat, n: nat): (r: seq<Buf>)
    requires i < |buf|
  {
    buf[i := buf[i].(next := n)]
  }

  function SetPrev(buf: seq<Buf>, i: nat, p: nat): (r: seq<Buf>)
    requires i < |buf|
  {
    buf[i := buf[i].(prev := p)]
  }

  // b->next->prev = b->prev; b->prev->next = b->next.
  function Unlink(buf: seq<Buf>, b: nat): (r: seq<Buf>)
    requires b < |buf| && buf[b].next < |buf| && buf[b].prev < |buf|
  {
    var buf1 := SetPrev(buf, buf[b].next, buf[b].prev);
    SetNext(buf1, buf1[b].prev, buf1[b].next)
  }

  // b->next = head.next; b->prev = &head; head.next->prev = b; head.next = b.
  function LinkFront(buf: seq<Buf>, b: nat): (r: seq<Buf>)
    requires b < NBUF && |buf| == NBUF + 1 && buf[HEAD].next < |buf|
  {
    var buf1 := SetPrev(SetNext(buf, b, buf[HEAD].next), b, HEAD);
    SetNext(SetPrev(buf1, buf1[HEAD].next, b), HEAD, b)
  }

  // The fields that the list surgery must not touch.
  ghost predicate SamePayload(buf: seq<Buf>, buf': seq<Buf>) {
    && |buf| == |buf'|
    && forall i :: 0 <= i < |buf| ==> buf'[i] == buf[i].(prev := buf'[i].prev, next := buf'[i].next)
  }

  // What Unlink makes of each buffer.
  lemma UnlinkFields(buf: seq<Buf>, b: nat)
    requires b < |buf| && buf[b].next < |buf| && buf[b].prev < |buf| && b != buf[b].next && b != buf[b].prev
    ensures |Unlink(buf, b)| == |buf| && SamePayload(buf, Unlink(buf, b))
    ensures forall x :: 0 <= x < |buf| ==> Unlink(buf, b)[x].next == if x == buf[b].prev then buf[b].next
                                           else buf[x].next
    ensures forall x :: 0 <= x < |buf| ==> Unlink(buf, b)[x].prev == if x == buf[b].next then buf[b].prev
                                           else buf[x].prev
  {
  }

  // Each place but the last, and each but the first, is another buffer.
  lemma Places(order: seq<nat>, i: nat, j: nat)
    requires Distinct(order)
    ensures i <= |order| && j <= |order| && At(order, i) == At(order, j) ==> i == j
    ensures 0 < i <= |order| + 1 && 0 < j <= |order| + 1 && At(order, i) == At(order, j) ==> i == j
    ensures (i <= |order| + 1 ==> At(order, i) <= NBUF) && (j <= |order| + 1 ==> At(order, j) <= NBUF)
  {
  }

  lemma PlacesWithout(order: seq<nat>, k: nat, i: nat)
    requires k < |order| && i <= |order|
    ensures At(Without(order, k), i) == At(order, if i <= k then i else i + 1)
  {
  }

  lemma UnlinkAt(buf: seq<Buf>, order: seq<nat>, k: nat, i: nat)
    requires Ring(buf, order) && k < |order| && i < |order|
    requires order[k] < |buf| && buf[order[k]].next == At(order, k + 2) < |buf|
             && buf[order[k]].prev == At(order, k) < |buf|
    ensures var buf', order' := Unlink(buf, order[k]), Without(order, k);
            && At(order', i) < |buf'| && At(order', i + 1) < |buf'|
            && buf'[At(order', i)].next == At(order', i + 1) && buf'[At(order', i + 1)].prev == At(order', i)
  {
    hide Unlink, Without, Distinct;
    Places(order, k, k + 1);
    Places(order, k + 1, k + 2);
    UnlinkFields(buf, order[k]);
    PlacesWithout(order, k, i);
    PlacesWithout(order, k, i + 1);
    var j := if i <= k then i else i + 1;
    var n := if i + 1 <= k then i + 1 else i + 2;
    Places(order, j, k);
    Places(order, n, k + 2);
    assert buf[At(order, j)].next == At(order, j + 1);
    assert buf[At(order, n - 1 + 1)].prev == At(order, n - 1);
  }

  lemma UnlinkRing(buf: seq<Buf>, order: seq<nat>, k: nat)
    requires Ring(buf, order) && k < |order|
    ensures buf[order[k]].next < |buf| && buf[order[k]].prev < |buf|
    ensures Ring(Unlink(buf, order[k]), Without(order, k)) && SamePayload(buf, Unlink(buf, order[k]))
  {
    hide Unlink;
    var b := order[k];
    assert At(order, k + 1) == b;
    assert buf[b].next == At(order, k + 2) && buf[b].prev == At(order, k);
    UnlinkFields(buf, b);
    forall i | 0 <= i < |order|
      ensures var buf', order' := Unlink(buf, b), Without(order, k);
              buf'[At(order', i)].next == At(order', i + 1) && buf'[At(order', i + 1)].prev == At(order', i)
    {
      UnlinkAt(buf, order, k, i);
    }
  }

  lemma LinkFrontRing(buf: seq<Buf>, order: seq<nat>, b: nat)
    requires Ring(buf, order) && b < NBUF && b !in order
    ensures buf[HEAD].next < |buf|
    ensures Ring(LinkFront(buf, b), [b] + order) && SamePayload(buf, LinkFront(buf, b))
  {
    assert buf[At(order, 0)].next == At(order, 1);
    var buf', order' := LinkFront(buf, b), [b] + order;
    forall i | 0 <= i <= |order'|
      ensures buf'[At(order', i)].next == At(order', i + 1) && buf'[At(order', i + 1)].prev == At(order', i)
    {
      if i >= 1 { assert At(order', i + 1) == At(order, i); }
      if i >= 2 {
        assert At(order', i) == At(order, i - 1);
        assert buf[At(order, i - 1)].next == At(order, i - 1 + 1);
        assert buf[At(order, i - 1 + 1)].prev == At(order, i - 1);
      }
    }
  }

  // ---------------------------------------------------------------- permutations

  lemma {:induction false} DistinctSize(order: seq<nat>)
    requires Distinct(order)
    ensures |Elements(order)| == |order|
  {
    if order == [] { assert Elements(order) == {}; } else {
      DistinctSize(order[1..]);
      assert order == [order[0]] + order[1..];
      assert Elements(order) == Elements(order[1..]) + {order[0]};
    }
  }

  lemma SameSize(a: set<nat>, b: set<nat>)
    requires a <= b && |a| == |b|
    ensures a == b
  {
    assert b == a + (b - a);
  }

  // A ring of NBUF distinct buffers is a permutation of them all.
  lemma Covers(order: seq<nat>, b: nat)
    requires Distinct(order) && |order| == NBUF && b < NBUF
    ensures b in order
  {
    DistinctSize(order);
    SameSize(Elements(order), Span(0, NBUF));
    assert b in Span(0, NBUF);
  }

  lemma PositionOf(order: seq<nat>, b: nat) returns (k: nat)
    requires Distinct(order) && |order| == NBUF && b < NBUF
    ensures k < |order| && order[k] == b
  {
    Covers(order, b);
    k :| 0 <= k < |order| && order[k] == b;
  }

  // ---------------------------------------------------------------- the cache

  predicate Caches(f: Buf, dev: nat, blockno: nat) { f.dev == dev && f.blockno == blockno }

  // No two buffers cache the same block.  Buffers start as (0, 0), so device 0 is excepted.
  ghost predicate Unique(buf: seq<Buf>) {
    forall i, j :: 0 <= i < j < NBUF < |buf| && Caches(buf[j], buf[i].dev, buf[i].blockno) ==> buf[i].dev == 0
  }

  // The ring lists the buffers from the most to the least recently released.
  ghost predicate ByAge(order: seq<nat>, stamp: seq<nat>, clock: nat) {
    && |stamp| == NBUF && Distinct(order)
    && (forall b :: 0 <= b < NBUF ==> stamp[b] < clock)
    && (forall i, j :: 0 <= i < j < |order| ==> stamp[order[i]] > stamp[order[j]])
  }

  class BufferCache {
    var buf: seq<Buf>
    var disk: seq<Block>
    ghost var order: seq<nat>   // the ring, most recently released first
    ghost var stamp: seq<nat>   // when each buffer's last reference was released
    ghost var clock: nat
    var history: seq<seq<Block>>   // every disk state that a crash could have left

    ghost predicate Valid()
      reads this
    {
      Ring(buf, order) && |order| == NBUF && Unique(buf) && ByAge(order, stamp, clock)
    }

    // binit, on zeroed memory.
    constructor (disk: seq<Block>)
      ensures Valid() && this.disk == disk && history == [disk]
      ensures forall b :: 0 <= b < NBUF ==> buf[b].refcnt == 0 && !buf[b].valid && buf[b].dev == 0
    {
      this.disk := disk;
      var zero := Buf(false, 0, 0, 0, 0, 0, []);
      var ring := seq(NBUF, _ => zero) + [zero.(prev := HEAD, next := HEAD)];
      ghost var done: seq<nat> := [];
      for b := 0 to NBUF
        invariant Ring(ring, done) && |done| == b
        invariant forall i :: 0 <= i < b ==> done[i] == b - 1 - i
        invariant forall i :: 0 <= i < NBUF ==> ring[i] == zero.(prev := ring[i].prev, next := ring[i].next)
      {
        LinkFrontRing(ring, done, b);
        ring := LinkFront(ring, b);
        done := [b] + done;
      }
      buf := ring;
      order := done;
      stamp := seq(NBUF, i => i);
      clock := NBUF;
      history := [disk];
    }

    // The first loop of bget: along next, until a buffer caches the block.
    method Lookup(dev: nat, blockno: nat) returns (b: nat)
      requires Valid()
      ensures b == HEAD || (b < NBUF && Caches(buf[b], dev, blockno))
      ensures b == HEAD ==> forall c :: 0 <= c < NBUF ==> !Caches(buf[c], dev, blockno)
    {
      b := buf[HEAD].next;
      ghost var i := 0;
      assert buf[At(order, 0)].next == At(order, 1);
      while b != HEAD
        invariant 0 <= i <= NBUF && b == At(order, i + 1)
        invariant forall j :: 0 <= j < i ==> !Caches(buf[order[j]], dev, blockno)
        decreases NBUF - i
      {
        if Caches(buf[b], dev, blockno) { return; }
        assert buf[At(order, i + 1)].next == At(order, i + 1 + 1);
        b := buf[b].next;
        i := i + 1;
      }
      forall c | 0 <= c < NBUF ensures !Caches(buf[c], dev, blockno) { var k := PositionOf(order, c); }
    }

    // The second loop of bget: along prev, until a buffer is unreferenced.
    method Victim() returns (b: nat)
      requires Valid()
      ensures b == HEAD || (b < NBUF && buf[b].refcnt == 0)
      ensures b == HEAD ==> forall c :: 0 <= c < NBUF ==> buf[c].refcnt > 0
      ensures b < NBUF ==> forall c :: 0 <= c < NBUF && buf[c].refcnt == 0 ==> stamp[b] <= stamp[c]
    {
      b := buf[HEAD].prev;
      ghost var i := NBUF;
      assert buf[At(order, NBUF + 1)].prev == At(order, NBUF);
      while b != HEAD
        invariant 0 <= i <= NBUF && b == At(order, i)
        invariant forall j :: i <= j < NBUF ==> buf[order[j]].refcnt > 0
        decreases i
      {
        if buf[b].refcnt == 0 {
          forall c | 0 <= c < NBUF && buf[c].refcnt == 0 ensures stamp[b] <= stamp[c] { var k := PositionOf(order, c); }
          return;
        }
        assert buf[At(order, i - 1 + 1)].prev == At(order, i - 1);
        b := buf[b].prev;
        i := i - 1;
      }
      forall c | 0 <= c < NBUF ensures buf[c].refcnt > 0 { var k := PositionOf(order, c); }
    }

    // Look for the block; on a miss recycle the unreferenced buffer released longest ago.
    // None stands for the panic "bget: no buffers".
    method Bget(dev: nat, blockno: nat) returns (r: Option<nat>)
      requires Valid()
      modifies this`buf
      ensures Valid()
      ensures r == None ==> buf == old(buf)
      ensures r == None <==> (forall i :: 0 <= i < NBUF ==>
                                            !Caches(old(buf)[i], dev, blockno) && old(buf)[i].refcnt > 0)
      ensures r.Some? ==> r.value < NBUF && Caches(buf[r.value], dev, blockno)
      ensures r.Some? && Caches(old(buf)[r.value], dev, blockno) ==>
                buf == old(buf)[r.value := old(buf)[r.value].(refcnt := old(buf)[r.value].refcnt + 1)]
      ensures r.Some? && !Caches(old(buf)[r.value], dev, blockno) ==>
                && (forall i :: 0 <= i < NBUF ==> !Caches(old(buf)[i], dev, blockno))
                && old(buf)[r.value].refcnt == 0
                && (forall c :: 0 <= c < NBUF && old(buf)[c].refcnt == 0 ==> stamp[r.value] <= stamp[c])
                && buf == old(buf)[r.value := old(buf)[r.value].(dev := dev, blockno := blockno, valid := false,
                                                                 refcnt := 1)]
    {
      var b := Lookup(dev, blockno);
      if b != HEAD {
        buf := buf[b := buf[b].(refcnt := buf[b].refcnt + 1)];
      } else {
        b := Victim();
        if b == HEAD { return None; }
        buf := buf[b := buf[b].(dev := dev, blockno := blockno, valid := false, refcnt := 1)];
      }
      RingKept(old(buf), buf, order);
      r := Some(b);
    }

    // The contents returned are the cached ones when there are any, the disk's otherwise.
    method Bread(dev: nat, blockno: nat) returns (r: Option<nat>)
      requires Valid() && blockno < |disk|
      modifies this`buf
      ensures Valid()
      ensures r.Some? ==> r.value < NBUF && Caches(buf[r.value], dev, blockno) && buf[r.value].valid
                          && buf[r.value].refcnt > 0
      ensures r.Some? ==> buf[r.value].data == (if Caches(old(buf)[r.value], dev, blockno) && old(buf)[r.value].valid
                                                then old(buf)[r.value].data else disk[blockno])
      ensures r.Some? ==> forall i :: 0 <= i <= NBUF && i != r.value ==> buf[i] == old(buf)[i]
      ensures r == None ==> buf == old(buf)
      ensures r == None <==> (forall i :: 0 <= i < NBUF ==>
                                            !Caches(old(buf)[i], dev, blockno) && old(buf)[i].refcnt > 0)
      ensures r.Some? && !Caches(old(buf)[r.value], dev, blockno) ==>
                old(buf)[r.value].refcnt == 0 && forall i :: 0 <= i < NBUF ==> !Caches(old(buf)[i], dev, blockno)
      ensures r.Some? ==> buf[r.value].refcnt == old(buf)[r.value].refcnt + 1
    {
      r := Bget(dev, blockno);
      if r.Some? && !buf[r.value].valid {
        var b := r.value;
        ghost var before := buf;
        buf := buf[b := buf[b].(data := disk[blockno], valid := true)];
        RingKept(before, buf, order);
      }
    }

    // The holder of a buffer changes its data.
    method SetData(b: nat, data: Block)
      requires Valid() && b < NBUF && buf[b].refcnt > 0
      modifies this`buf
      ensures Valid() && buf == old(buf)[b := old(buf)[b].(data := data)]
    {
      buf := buf[b := buf[b].(data := data)];
      RingKept(old(buf), buf, order);
    }

    // One atomic block write; the history records the disk after it.
    method Bwrite(b: nat)
      requires Valid() && b < NBUF && buf[b].refcnt > 0 && buf[b].blockno < |disk|
      modifies this`disk, this`history
      ensures Valid() && disk == old(disk)[buf[b].blockno := buf[b].data]
      ensures history == old(history) + [disk]
    {
      disk := disk[buf[b].blockno := buf[b].data];
      history := history + [disk];
    }

    // Unlink an unreferenced buffer and put it behind the head.
    method MoveToFront(b: nat)
      requires Valid() && b < NBUF
      modifies this`buf, this`order, this`stamp, this`clock
      ensures Valid() && SamePayload(old(buf), buf)
      ensures order[0] == b && stamp == old(stamp)[b := old(clock)]
      ensures exists k :: 0 <= k < NBUF && old(order)[k] == b && order == [b] + Without(old(order), k)
    {
      ghost var k := PositionOf(order, b);
      UnlinkRing(buf, order, k);
      buf := SetPrev(buf, buf[b].next, buf[b].prev);
      buf := SetNext(buf, buf[b].prev, buf[b].next);
      assert buf == Unlink(old(buf), b);
      LinkFrontRing(buf, Without(order, k), b);
      ghost var unlinked := buf;
      buf := SetNext(buf, b, buf[HEAD].next);
      buf := SetPrev(buf, b, HEAD);
      buf := SetPrev(buf, buf[HEAD].next, b);
      buf := SetNext(buf, HEAD, b);
      assert buf == LinkFront(unlinked, b);
      FrontIsYoungest(order, stamp, clock, k);
      order := [b] + Without(order, k);
      stamp := stamp[b := clock];
      clock := clock + 1;
    }

    // Drop a reference; the last one moves the buffer to the front of the ring.
    method Brelse(b: nat)
      requires Valid() && b < NBUF && buf[b].refcnt > 0
      modifies this`buf, this`order, this`stamp, this`clock
      ensures Valid()
      ensures SamePayload(old(buf)[b := old(buf)[b].(refcnt := old(buf)[b].refcnt - 1)], buf)
      ensures buf[b].refcnt > 0 ==> order == old(order) && stamp == old(stamp)
      ensures buf[b].refcnt == 0 ==> order[0] == b && stamp == old(stamp)[b := old(clock)]
    {
      buf := buf[b := buf[b].(refcnt := buf[b].refcnt - 1)];
      RingKept(old(buf), buf, order);
      if buf[b].refcnt == 0 { MoveToFront(b); }
    }

    method Bpin(b: nat)
      requires Valid() && b < NBUF
      modifies this`buf
      ensures Valid() && buf == old(buf)[b := old(buf)[b].(refcnt := old(buf)[b].refcnt + 1)]
    {
      buf := buf[b := buf[b].(refcnt := buf[b].refcnt + 1)];
      RingKept(old(buf), buf, order);
    }

    // Takes back a bpin.  The buffer keeps its place in the ring, even when it is no longer in use.
    method Bunpin(b: nat)
      requires Valid() && b < NBUF && buf[b].refcnt > 0
      modifies this`buf
      ensures Valid() && buf == old(buf)[b := old(buf)[b].(refcnt := old(buf)[b].refcnt - 1)]
    {
      buf := buf[b := buf[b].(refcnt := buf[b].refcnt - 1)];
      RingKept(old(buf), buf, order);
    }
  }

  // Changing payload fields leaves the ring alone.
  lemma RingKept(buf: seq<Buf>, buf': seq<Buf>, order: seq<nat>)
    requires Ring(buf, order) && |buf'| == |buf|
    requires forall i :: 0 <= i < |buf| ==> buf'[i].prev == buf[i].prev && buf'[i].next == buf[i].next
    ensures Ring(buf', order)
  {
    forall i | 0 <= i <= |order|
      ensures buf'[At(order, i)].next == At(order, i + 1) && buf'[At(order, i + 1)].prev == At(order, i) {
      assert buf[At(order, i)].next == At(order, i + 1);
      assert buf[At(order, i + 1)].prev == At(order, i);
    }
  }

  lemma FrontIsYoungest(order: seq<nat>, stamp: seq<nat>, clock: nat, k: nat)
    requires ByAge(order, stamp, clock) && k < |order|
    ensures ByAge([order[k]] + Without(order, k), stamp[order[k] := clock], clock + 1)
  {
    var rest := Without(order, k);
    assert forall i :: 0 <= i < |rest| ==> rest[i] == order[if i < k then i else i + 1];
  }
}
