/** The user-level allocator of user/umalloc.c (Kernighan and Ritchie, section 8.7): a circular list
    of free blocks in address order.  Addresses count headers (16 bytes); 0 is the null pointer. */
module UMalloc {
  import opened Params

  datatype Header = Header(ptr: nat, size: nat)

  type Heap = map<nat, Header>
  type Tiles = map<nat, nat>

  // ---------------------------------------------------------------- the free list

  function Succ(fl: seq<nat>, k: nat): nat
    requires k < |fl|
  {
    if k + 1 < |fl| then fl[k + 1] else fl[0]
  }

  function Size(h: Heap, b: nat): nat { if b in h then h[b].size else 0 }

  // Entry k of the list: linked to its successor, which lies beyond its end.
  predicate LinkOk(h: Heap, fl: seq<nat>, k: nat)
    requires k < |fl|
  {
    fl[k] in h && h[fl[k]].ptr == Succ(fl, k) && (h[fl[k]].size == 0 <==> k == 0)
    && (k + 1 < |fl| ==> fl[k] < fl[k + 1] && fl[k] + h[fl[k]].size <= fl[k + 1])
  }

  // The list starts at the static header base, which has size 0, and climbs.
  ghost predicate ListOk(h: Heap, base: nat, fl: seq<nat>) {
    |fl| >= 1 && fl[0] == base > 0 && forall k :: 0 <= k < |fl| ==> LinkOk(h, fl, k)
  }

  // Block k does not touch its successor.
  predicate Apart(h: Heap, fl: seq<nat>, k: nat) { k + 1 < |fl| ==> fl[k] + Size(h, fl[k]) != fl[k + 1] }

  ghost predicate AllApart(h: Heap, fl: seq<nat>) { forall k :: 0 <= k < |fl| ==> Apart(h, fl, k) }

  lemma {:induction false} Climbs(h: Heap, base: nat, fl: seq<nat>, j: nat, k: nat)
    requires ListOk(h, base, fl) && j < k < |fl|
    ensures fl[j] < fl[k] && fl[j] + Size(h, fl[j]) <= fl[k]
    decreases k
  {
    assert LinkOk(h, fl, j) && LinkOk(h, fl, k - 1);
    if j < k - 1 { Climbs(h, base, fl, j, k - 1); }
  }

  // ---------------------------------------------------------------- who owns which unit

  predicate IsFree(fl: seq<nat>, b: nat) { |fl| >= 1 && b in fl && b != fl[0] }

  predicate IsBlock(fl: seq<nat>, used: set<nat>, b: nat)
    requires |fl| >= 1
  {
    IsFree(fl, b) || b in used
  }

  // Every unit of block b is owned by b.
  ghost predicate Fills(h: Heap, own: Tiles, b: nat) { forall u :: b <= u < b + Size(h, b) ==> u in own && own[u] == b }

  predicate UnitOk(h: Heap, fl: seq<nat>, used: set<nat>, own: Tiles, u: nat)
    requires |fl| >= 1 && u in own
  {
    IsBlock(fl, used, own[u]) && own[u] <= u < own[u] + Size(h, own[u])
  }

  // Free and allocated blocks tile the memory obtained so far: own maps each unit to its block.
  ghost predicate TilesOk(h: Heap, fl: seq<nat>, used: set<nat>, own: Tiles)
    requires |fl| >= 1
  {
    && (forall b :: b in used ==> !IsFree(fl, b) && b != fl[0] && Size(h, b) > 0)
    && (forall b :: IsBlock(fl, used, b) ==> Fills(h, own, b))
    && (forall u :: u in own ==> UnitOk(h, fl, used, own, u))
  }

  ghost predicate HeapOk(h: Heap, base: nat, fl: seq<nat>, used: set<nat>, own: Tiles, top: nat) {
    && ListOk(h, base, fl) && TilesOk(h, fl, used, own) && base < top
    && (forall u :: u in own ==> base < u < top)
  }

  // Headers outside the list and the allocated blocks do not matter.
  lemma SameTiles(h: Heap, h': Heap, fl: seq<nat>, fl': seq<nat>, used: set<nat>, used': set<nat>, own: Tiles)
    requires |fl| >= 1 && |fl'| >= 1 && TilesOk(h, fl, used, own) && fl'[0] == fl[0]
    requires forall b :: IsBlock(fl', used', b) <==> IsBlock(fl, used, b)
    requires forall b :: IsBlock(fl, used, b) ==> Size(h', b) == Size(h, b)
    requires forall b :: b in used' ==> !IsFree(fl', b) && b != fl[0]
    requires forall b :: b in used' ==> Size(h, b) > 0
    ensures TilesOk(h', fl', used', own)
  {
    hide Size;
    forall b | IsBlock(fl', used', b) ensures Fills(h', own, b) { assert Fills(h, own, b); }
    forall u | u in own ensures UnitOk(h', fl', used', own, u) { assert UnitOk(h, fl, used, own, u); }
  }

  // ---------------------------------------------------------------- where a block belongs

  // The place of address b in the list: after entry k.
  predicate Place(fl: seq<nat>, k: nat, b: nat) { k < |fl| && fl[k] < b && (k + 1 < |fl| ==> b < fl[k + 1]) }

  lemma {:induction false} PlaceExists(h: Heap, base: nat, fl: seq<nat>, b: nat, n: nat) returns (k: nat)
    requires ListOk(h, base, fl) && b > base && !IsFree(fl, b) && 1 <= n <= |fl| && (n == |fl| || b < fl[n])
    ensures Place(fl, k, b)
  {
    if fl[n - 1] < b { k := n - 1; }
    else {
      k := PlaceExists(h, base, fl, b, n - 1);
    }
  }

  // free's search stops exactly there.
  lemma SearchStops(h: Heap, base: nat, fl: seq<nat>, b: nat, k: nat, j: nat)
    requires ListOk(h, base, fl) && Place(fl, k, b) && j < |fl|
    ensures j == k <==> (fl[j] < b < Succ(fl, j)) || (fl[j] >= Succ(fl, j) && (b > fl[j] || b < Succ(fl, j)))
  {
    assert LinkOk(h, fl, j);
    if j < k { Climbs(h, base, fl, j, k); if j + 1 < k { Climbs(h, base, fl, j + 1, k); } }
    if k < j { Climbs(h, base, fl, k, j); if k + 1 < j { Climbs(h, base, fl, k + 1, j); } }
    if 0 < j { Climbs(h, base, fl, 0, j); }
    if 0 < k { Climbs(h, base, fl, 0, k); }
  }

  // ---------------------------------------------------------------- inserting and removing entries

  function InsertAt(fl: seq<nat>, k: nat, b: nat): (r: seq<nat>)
    requires k < |fl|
    ensures |r| == |fl| + 1 && r[k + 1] == b && (forall i :: 0 <= i <= k ==> r[i] == fl[i])
            && (forall i :: k + 1 < i < |r| ==> r[i] == fl[i - 1])
    ensures forall x :: x in r <==> x in fl || x == b
  {
    var r := fl[..k + 1] + [b] + fl[k + 1..];
    assert fl == fl[..k + 1] + fl[k + 1..];
    r
  }

  function RemoveAt(fl: seq<nat>, k: nat): (r: seq<nat>)
    requires 0 < k < |fl|
    ensures |r| == |fl| - 1 && (forall i :: 0 <= i < k ==> r[i] == fl[i])
            && (forall i :: k <= i < |r| ==> r[i] == fl[i + 1])
    ensures forall x :: x in r ==> x in fl
    ensures forall x :: x in fl ==> x in r || x == fl[k]
  {
    var r := fl[..k] + fl[k + 1..];
    assert fl == fl[..k] + [fl[k]] + fl[k + 1..];
    r
  }

  // Two blocks do not overlap.
  lemma Disjoint(h: Heap, fl: seq<nat>, used: set<nat>, own: Tiles, a: nat, b: nat)
    requires |fl| >= 1 && TilesOk(h, fl, used, own) && IsBlock(fl, used, a) && IsBlock(fl, used, b) && a < b
             && Size(h, b) > 0
    ensures a + Size(h, a) <= b
  {
    assert Fills(h, own, a) && Fills(h, own, b);
    assert b in own && own[b] == b;
  }

  // free first links the block in between its neighbours.
  lemma Inserted(h: Heap, base: nat, fl: seq<nat>, used: set<nat>, own: Tiles, top: nat, k: nat, b: nat)
    requires HeapOk(h, base, fl, used, own, top) && b in used && Place(fl, k, b)
    ensures fl[k] in h && b in h
    ensures HeapOk(h[b := Header(Succ(fl, k), h[b].size)][fl[k] := Header(b, h[fl[k]].size)], base,
                   InsertAt(fl, k, b), used - {b}, own, top)
  {
    assert LinkOk(h, fl, k);
    var h', fl' := h[b := Header(Succ(fl, k), h[b].size)][fl[k] := Header(b, h[fl[k]].size)], InsertAt(fl, k, b);
    if k > 0 { Climbs(h, base, fl, 0, k); Disjoint(h, fl, used, own, fl[k], b); }
    if k + 1 < |fl| {
      Climbs(h, base, fl, 0, k + 1);
      assert LinkOk(h, fl, k + 1);
      Disjoint(h, fl, used, own, b, fl[k + 1]);
    }
    forall i | 0 <= i < |fl'| ensures LinkOk(h', fl', i) { InsertedLink(h, base, fl, k, b, i); }
    SameTiles(h, h', fl, fl', used, used - {b}, own);
  }

  lemma InsertedLink(h: Heap, base: nat, fl: seq<nat>, k: nat, b: nat, i: nat)
    requires ListOk(h, base, fl) && Place(fl, k, b) && b !in fl && b in h && fl[k] in h && i <= |fl| && h[b].size > 0
    requires fl[k] + h[fl[k]].size <= b && (k + 1 < |fl| ==> b + h[b].size <= fl[k + 1])
    ensures LinkOk(h[b := Header(Succ(fl, k), h[b].size)][fl[k] := Header(b, h[fl[k]].size)], InsertAt(fl, k, b), i)
  {
    if i <= k {
      assert LinkOk(h, fl, i);
      if i < k { Climbs(h, base, fl, i, k); }
    } else if i > k + 1 {
      assert LinkOk(h, fl, i - 1);
      Climbs(h, base, fl, k, i - 1);
    }
  }

  // The tiles when block c joins its lower neighbour b.
  function Join(own: Tiles, b: nat, c: nat): (r: Tiles)
    ensures r.Keys == own.Keys && forall u :: u in own ==> r[u] == if own[u] == c then b else own[u]
  {
    map u | u in own :: if own[u] == c then b else own[u]
  }

  // Two free blocks that touch become one.
  lemma Joined(h: Heap, base: nat, fl: seq<nat>, used: set<nat>, own: Tiles, top: nat, j: nat)
    requires HeapOk(h, base, fl, used, own, top) && 0 < j && j + 1 < |fl| && fl[j] in h && fl[j + 1] in h
             && fl[j] + h[fl[j]].size == fl[j + 1]
    ensures HeapOk(h[fl[j] := Header(h[fl[j + 1]].ptr, h[fl[j]].size + h[fl[j + 1]].size)], base, RemoveAt(fl, j + 1),
                   used, Join(own, fl[j], fl[j + 1]), top)
  {
    var b, c := fl[j], fl[j + 1];
    var h', fl' := h[b := Header(h[c].ptr, h[b].size + h[c].size)], RemoveAt(fl, j + 1);
    forall i | 0 <= i < |fl'| ensures LinkOk(h', fl', i) { JoinedLink(h, base, fl, j, i); }
    Climbs(h, base, fl, 0, j);
    Climbs(h, base, fl, j, j + 1);
    forall x ensures IsFree(fl', x) <==> IsFree(fl, x) && x != c { RemovedFree(h, base, fl, j + 1, x); }
    JoinedTiles(h, h', fl, fl', used, own, b, c);
  }

  lemma RemovedFree(h: Heap, base: nat, fl: seq<nat>, i: nat, x: nat)
    requires ListOk(h, base, fl) && 0 < i < |fl|
    ensures IsFree(RemoveAt(fl, i), x) <==> IsFree(fl, x) && x != fl[i]
  {
    var fl' := RemoveAt(fl, i);
    if x in fl' && x == fl[i] {
      var k :| 0 <= k < |fl'| && fl'[k] == x;
      if k < i { Climbs(h, base, fl, k, i); } else { Climbs(h, base, fl, i, k + 1); }
    }
  }

  lemma JoinedLink(h: Heap, base: nat, fl: seq<nat>, j: nat, i: nat)
    requires ListOk(h, base, fl) && 0 < j && j + 1 < |fl| && i + 1 < |fl| && fl[j] in h && fl[j + 1] in h
             && fl[j] + h[fl[j]].size == fl[j + 1]
    ensures LinkOk(h[fl[j] := Header(h[fl[j + 1]].ptr, h[fl[j]].size + h[fl[j + 1]].size)], RemoveAt(fl, j + 1), i)
  {
    assert LinkOk(h, fl, j) && LinkOk(h, fl, j + 1);
    if i < j { assert LinkOk(h, fl, i); Climbs(h, base, fl, i, j); }
    else if i > j { assert LinkOk(h, fl, i + 1); Climbs(h, base, fl, j, i + 1); }
  }

  lemma JoinedFills(h: Heap, h': Heap, own: Tiles, b: nat, c: nat, x: nat)
    requires Fills(h, own, x) && Fills(h, own, c) && c == b + Size(h, b) && x != c
    requires Size(h', x) == if x == b then Size(h, b) + Size(h, c) else Size(h, x)
    ensures Fills(h', Join(own, b, c), x)
  {
    hide Size;
    forall u | x <= u < x + Size(h', x) ensures u in own && (own[u] == x || (x == b && own[u] == c)) {}
  }

  lemma JoinedTiles(h: Heap, h': Heap, fl: seq<nat>, fl': seq<nat>, used: set<nat>, own: Tiles, b: nat, c: nat)
    requires |fl| >= 1 && |fl'| >= 1 && fl'[0] == fl[0] && TilesOk(h, fl, used, own) && IsFree(fl, b) && IsFree(fl, c)
             && b < c == b + Size(h, b)
    requires forall x :: Size(h', x) == if x == b then Size(h, b) + Size(h, c) else Size(h, x)
    requires forall x :: IsFree(fl', x) <==> IsFree(fl, x) && x != c
    ensures TilesOk(h', fl', used, Join(own, b, c))
  {
    hide Size, IsFree, Fills;
    var own' := Join(own, b, c);
    assert IsBlock(fl, used, b) && IsBlock(fl, used, c);
    forall x | IsBlock(fl', used, x) ensures Fills(h', own', x) {
      assert IsBlock(fl, used, x) && x != c;
      JoinedFills(h, h', own, b, c, x);
    }
    forall u | u in own' ensures UnitOk(h', fl', used, own', u) { assert UnitOk(h, fl, used, own, u); }
  }

  // ---------------------------------------------------------------- free

  // What free does to the headers, once it has found the predecessor p of block b.
  function FreeHeap(h: Heap, p: nat, b: nat): Heap
    requires p in h && b in h && (b + h[b].size == h[p].ptr ==> h[p].ptr in h)
  {
    var q := h[p].ptr;
    var h1 := if b + h[b].size == q then h[b := Header(h[q].ptr, h[b].size + h[q].size)]
        else h[b := Header(q, h[b].size)];
    if p + h1[p].size == b then h1[p := Header(h1[b].ptr, h1[p].size + h1[b].size)] else h1[p := h1[p].(ptr := b)]
  }

  // No two entries touch, apart from those at and after k.
  ghost predicate ApartBut(h: Heap, fl: seq<nat>, k: nat, m: nat) {
    forall i :: 0 <= i < |fl| && !(k <= i < m) ==> Apart(h, fl, i)
  }

  lemma InsertedApart(h: Heap, base: nat, fl: seq<nat>, k: nat, b: nat)
    requires ListOk(h, base, fl) && AllApart(h, fl) && Place(fl, k, b) && b !in fl && b in h && fl[k] in h
    ensures ApartBut(h[b := Header(Succ(fl, k), h[b].size)][fl[k] := Header(b, h[fl[k]].size)], InsertAt(fl, k, b), k,
                     k + 2)
  {
    var h', fl' := h[b := Header(Succ(fl, k), h[b].size)][fl[k] := Header(b, h[fl[k]].size)], InsertAt(fl, k, b);
    forall i | 0 <= i < |fl'| && !(k <= i < k + 2) ensures Apart(h', fl', i) {
      if i < k { assert Apart(h, fl, i) && LinkOk(h, fl, i); Climbs(h, base, fl, i, k); }
      else { assert Apart(h, fl, i - 1) && LinkOk(h, fl, i - 1); Climbs(h, base, fl, k, i - 1); }
    }
  }

  lemma JoinedApart(h: Heap, base: nat, fl: seq<nat>, j: nat, k: nat, m: nat)
    requires ListOk(h, base, fl) && 0 < j && j + 1 < |fl| && fl[j] in h && fl[j + 1] in h
             && fl[j] + h[fl[j]].size == fl[j + 1]
    requires ApartBut(h, fl, k, m) && k <= j && j < m
    ensures ApartBut(h[fl[j] := Header(h[fl[j + 1]].ptr, h[fl[j]].size + h[fl[j + 1]].size)], RemoveAt(fl, j + 1), k,
                     m - 1)
  {
    var h', fl' := h[fl[j] := Header(h[fl[j + 1]].ptr, h[fl[j]].size + h[fl[j + 1]].size)], RemoveAt(fl, j + 1);
    forall i | 0 <= i < |fl'| && !(k <= i < m - 1) ensures Apart(h', fl', i) {
      if i < j { assert Apart(h, fl, i); Climbs(h, base, fl, i, j); }
      else { assert Apart(h, fl, i + 1) && LinkOk(h, fl, i + 1); if i > j { Climbs(h, base, fl, j, i + 1); } }
    }
  }

  // The headers when b takes over its upper neighbour c.
  function Absorb(h: Heap, b: nat, c: nat): Heap
    requires b in h && c in h
  {
    h[b := Header(h[c].ptr, h[b].size + h[c].size)]
  }

  // A heap in which only the entries k .. m may touch their successors.
  ghost predicate Nearly(h: Heap, base: nat, fl: seq<nat>, used: set<nat>, own: Tiles, top: nat, k: nat, m: nat) {
    HeapOk(h, base, fl, used, own, top) && ApartBut(h, fl, k, m)
  }

  lemma LinkedIn(h: Heap, base: nat, fl: seq<nat>, used: set<nat>, own: Tiles, top: nat, k: nat, b: nat)
    requires HeapOk(h, base, fl, used, own, top) && AllApart(h, fl) && b in used && Place(fl, k, b)
    ensures fl[k] in h && b in h && fl[k] != b && b !in fl && h[b].size > 0 && base < b
    ensures Nearly(h[b := Header(Succ(fl, k), h[b].size)][fl[k] := Header(b, h[fl[k]].size)], base,
                   InsertAt(fl, k, b), used - {b}, own, top, k, k + 2)
  {
    Inserted(h, base, fl, used, own, top, k, b);
    InsertedApart(h, base, fl, k, b);
    if k > 0 { Climbs(h, base, fl, 0, k); }
  }

  // Entry j joins its successor if they touch; after that it is apart.
  lemma JoinStep(h: Heap, base: nat, fl: seq<nat>, used: set<nat>, own: Tiles, top: nat, j: nat, k: nat)
    returns (fl': seq<nat>, own': Tiles)
    requires Nearly(h, base, fl, used, own, top, k, j + 1) && k <= j < |fl| && (j == 0 ==> Apart(h, fl, 0))
    ensures fl[j] in h && (j + 1 < |fl| ==> fl[j + 1] in h) && own'.Keys == own.Keys
    ensures var touch := j + 1 < |fl| && fl[j] + h[fl[j]].size == fl[j + 1];
            && Nearly(if touch then Absorb(h, fl[j], fl[j + 1]) else h, base, fl', used, own', top, k, j)
            && fl' == (if touch then RemoveAt(fl, j + 1) else fl)
  {
    hide HeapOk, ApartBut;
    Entries(h, base, fl, used, own, top, j);
    if j + 1 < |fl| && fl[j] + h[fl[j]].size == fl[j + 1] {
      Joined(h, base, fl, used, own, top, j);
      JoinedApart(h, base, fl, j, k, j + 1);
      return RemoveAt(fl, j + 1), Join(own, fl[j], fl[j + 1]);
    }
    OneLess(h, fl, k, j);
    return fl, own;
  }

  lemma OneLess(h: Heap, fl: seq<nat>, k: nat, j: nat)
    requires ApartBut(h, fl, k, j + 1) && j < |fl| && Apart(h, fl, j)
    ensures ApartBut(h, fl, k, j)
  {
  }

  lemma Entries(h: Heap, base: nat, fl: seq<nat>, used: set<nat>, own: Tiles, top: nat, j: nat)
    requires HeapOk(h, base, fl, used, own, top) && j < |fl|
    ensures LinkOk(h, fl, j) && (j + 1 < |fl| ==> LinkOk(h, fl, j + 1)) && ListOk(h, base, fl)
  {
  }

  // The whole of free: the list stays ordered, tiles stay tiles, and no two free blocks touch.
  lemma FreeWorks(h: Heap, base: nat, fl: seq<nat>, used: set<nat>, own: Tiles, top: nat, k: nat, b: nat)
    returns (fl': seq<nat>, own': Tiles)
    requires HeapOk(h, base, fl, used, own, top) && AllApart(h, fl) && b in used && Place(fl, k, b)
    ensures fl[k] in h && b in h && h[fl[k]].ptr == Succ(fl, k) && Succ(fl, k) in h
    ensures HeapOk(FreeHeap(h, fl[k], b), base, fl', used - {b}, own', top) && AllApart(FreeHeap(h, fl[k], b), fl')
            && own'.Keys == own.Keys
    ensures |fl'| >= k + 1 && fl'[k] == fl[k]
    ensures if fl[k] + h[fl[k]].size == b then Size(FreeHeap(h, fl[k], b), fl[k]) >= h[b].size
            else k + 1 < |fl'| && fl'[k + 1] == b && Size(FreeHeap(h, fl[k], b), b) >= h[b].size
  {
    hide HeapOk, ListOk, ApartBut, AllApart;
    Entries(h, base, fl, used, own, top, k);
    Entries(h, base, fl, used, own, top, 0);
    LinkedIn(h, base, fl, used, own, top, k, b);
    var p, q := fl[k], Succ(fl, k);
    var h1, fl1 := h[b := Header(q, h[b].size)][p := Header(b, h[p].size)], InsertAt(fl, k, b);
    var fl2, own2 := JoinStep(h1, base, fl1, used - {b}, own, top, k + 1, k);
    var h2 := if k + 2 < |fl1| && b + h[b].size == q then Absorb(h1, b, q) else h1;
    assert k + 2 < |fl1| ==> fl1[k + 2] == q;
    fl', own' := JoinStep(h2, base, fl2, used - {b}, own2, top, k, k);
    NothingBut(h2, fl', k);
    FreeIs(h, base, fl, k, b);
    NothingBut(FreeHeap(h, p, b), fl', k);
  }

  lemma NothingBut(h: Heap, fl: seq<nat>, k: nat)
    ensures ApartBut(h, fl, k, k) <==> AllApart(h, fl)
  {
  }

  // The code's two assignments to each header come to the same as linking in and joining.
  lemma FreeIs(h: Heap, base: nat, fl: seq<nat>, k: nat, b: nat)
    requires k < |fl| && LinkOk(h, fl, k) && b in h && fl[k] != b && Succ(fl, k) in h && base == fl[0] < b
             && (k + 1 < |fl| ==> fl[k] < fl[k + 1] && b < fl[k + 1])
    ensures var p, q := fl[k], Succ(fl, k);
            var h1 := h[b := Header(q, h[b].size)][p := Header(b, h[p].size)];
            var h2 := if k + 1 < |fl| && b + h[b].size == q then Absorb(h1, b, q) else h1;
            FreeHeap(h, p, b) == if p + h[p].size == b then Absorb(h2, p, b) else h2
  {
  }

  // ---------------------------------------------------------------- taking a block

  // Units of a .. a + n now belong to a.
  function Claim(own: Tiles, a: nat, n: nat): (r: Tiles)
    ensures forall u :: u in r <==> u in own || a <= u < a + n
    ensures forall u :: u in r ==> r[u] == if a <= u < a + n then a else own[u]
    decreases n
  {
    if n == 0 then own else Claim(own, a, n - 1)[a + n - 1 := a]
  }

  // The lower part of free block j stays, the upper n units are given out.
  function Carve(h: Heap, b: nat, n: nat): Heap
    requires b in h && h[b].size > n
  {
    var h1 := h[b := h[b].(size := h[b].size - n)];
    var c := b + h1[b].size;
    h1[c := Header(if c in h1 then h1[c].ptr else 0, n)]
  }

  lemma SelfOwned(h: Heap, base: nat, fl: seq<nat>, used: set<nat>, own: Tiles, top: nat, x: nat)
    requires HeapOk(h, base, fl, used, own, top)
    ensures IsBlock(fl, used, x) ==> x in own && own[x] == x && Fills(h, own, x) && base < x && x + Size(h, x) <= top
                                     && Size(h, x) > 0
    ensures x in fl ==> x == base || IsBlock(fl, used, x)
  {
    if IsBlock(fl, used, x) { BelowTop(h, base, fl, used, own, top, x); }
  }

  lemma BelowTop(h: Heap, base: nat, fl: seq<nat>, used: set<nat>, own: Tiles, top: nat, b: nat)
    requires HeapOk(h, base, fl, used, own, top) && IsBlock(fl, used, b)
    ensures Fills(h, own, b) && b in own && own[b] == b && base < b < top && b + Size(h, b) <= top && Size(h, b) > 0
  {
    if b !in used {
      var k :| 0 <= k < |fl| && fl[k] == b;
      assert LinkOk(h, fl, k);
    }
    assert Fills(h, own, b) && b in own && b + Size(h, b) - 1 in own;
  }

  // Giving the units a .. a + n to a new block a: block x keeps its own.
  lemma ClaimFills(h: Heap, h': Heap, own: Tiles, a: nat, n: nat, x: nat)
    requires Size(h', x) <= Size(h, x) && Fills(h, own, x) && (x + Size(h', x) <= a || a + n <= x)
    ensures Fills(h', Claim(own, a, n), x)
  {
    hide Size;
  }

  lemma Carved(h: Heap, base: nat, fl: seq<nat>, used: set<nat>, own: Tiles, top: nat, j: nat, n: nat)
    requires HeapOk(h, base, fl, used, own, top) && AllApart(h, fl) && 0 < j < |fl| && fl[j] in h
             && 0 < n < h[fl[j]].size
    ensures var c := fl[j] + h[fl[j]].size - n;
            && HeapOk(Carve(h, fl[j], n), base, fl, used + {c}, Claim(own, c, n), top)
            && AllApart(Carve(h, fl[j], n), fl) && c !in used && c !in fl
  {
    hide TilesOk;
    var b := fl[j];
    var c := b + h[b].size - n;
    Climbs(h, base, fl, 0, j);
    SelfOwned(h, base, fl, used, own, top, b);
    SelfOwned(h, base, fl, used, own, top, c);
    assert own[c] == b;
    forall k | 0 <= k < |fl| ensures LinkOk(Carve(h, b, n), fl, k) && Apart(Carve(h, b, n), fl, k) {
      CarvedLink(h, base, fl, j, n, k);
    }
    CarvedTiles(h, base, fl, used, own, top, b, n);
  }

  lemma CarvedLink(h: Heap, base: nat, fl: seq<nat>, j: nat, n: nat, k: nat)
    requires ListOk(h, base, fl) && AllApart(h, fl) && 0 < j < |fl| && fl[j] in h && 0 < n < h[fl[j]].size && k < |fl|
             && fl[j] + h[fl[j]].size - n !in fl
    ensures LinkOk(Carve(h, fl[j], n), fl, k) && Apart(Carve(h, fl[j], n), fl, k)
  {
    assert LinkOk(h, fl, k) && Apart(h, fl, k);
    if k < j { Climbs(h, base, fl, k, j); } else if j < k { Climbs(h, base, fl, j, k); }
  }

  // A new block a takes the units a .. a + n, and every other block is out of its way.
  lemma ClaimTiles(h: Heap, h': Heap, fl: seq<nat>, used: set<nat>, own: Tiles, a: nat, n: nat)
    requires |fl| >= 1 && TilesOk(h, fl, used, own) && a !in fl && a !in used && Size(h', a) == n > 0
    requires forall x: nat :: IsBlock(fl, used, x) ==> Size(h', x) <= Size(h, x) && (x + Size(h', x) <= a || a + n <= x)
    requires forall x :: x in used ==> Size(h', x) > 0
    requires forall u :: u in own && !(a <= u < a + n) ==> u < own[u] + Size(h', own[u])
    ensures TilesOk(h', fl, used + {a}, Claim(own, a, n))
  {
    hide Fills, Size, IsFree;
    assert !IsBlock(fl, used, a) by { NotFree(fl, a); }
    var used', own' := used + {a}, Claim(own, a, n);
    forall x | IsBlock(fl, used', x) ensures Fills(h', own', x) {
      if x == a { JustClaimed(h', own, a, n); }
      else { assert IsBlock(fl, used, x); ClaimFills(h, h', own, a, n, x); }
    }
    forall u | u in own' ensures UnitOk(h', fl, used', own', u) {
      if !(a <= u < a + n) { UnitOf(h, fl, used, own, u); }
    }
  }

  lemma CarvedTiles(h: Heap, base: nat, fl: seq<nat>, used: set<nat>, own: Tiles, top: nat, b: nat, n: nat)
    requires HeapOk(h, base, fl, used, own, top) && IsFree(fl, b) && b in h && 0 < n < h[b].size
    requires var c := b + h[b].size - n; c !in fl && c !in used
    ensures TilesOk(Carve(h, b, n), fl, used + {b + h[b].size - n}, Claim(own, b + h[b].size - n, n))
  {
    hide Fills, ListOk, TilesOk;
    var c := b + h[b].size - n;
    var h' := Carve(h, b, n);
    forall x ensures Size(h', x) == if x == b then Size(h, b) - n else if x == c then n else Size(h, x) {}
    SelfOwned(h, base, fl, used, own, top, b);
    forall x: nat | IsBlock(fl, used, x) ensures Size(h', x) <= Size(h, x) && Size(h', x) > 0
        && (x + Size(h', x) <= c || c + n <= x) {
      SelfOwned(h, base, fl, used, own, top, x);
      OutOfWay(h, base, fl, used, own, top, b, x);
    }
    forall u | u in own && !(c <= u < c + n) ensures u < own[u] + Size(h', own[u]) { UnitOf(h, fl, used, own, u); }
    ClaimTiles(h, h', fl, used, own, c, n);
  }

  lemma NotFree(fl: seq<nat>, x: nat)
    requires |fl| >= 1 && x !in fl
    ensures !IsFree(fl, x) && x != fl[0]
  {
  }

  lemma UnitOf(h: Heap, fl: seq<nat>, used: set<nat>, own: Tiles, u: nat)
    requires |fl| >= 1 && TilesOk(h, fl, used, own) && u in own
    ensures UnitOk(h, fl, used, own, u)
  {
  }

  lemma JustClaimed(h: Heap, own: Tiles, a: nat, n: nat)
    requires Size(h, a) == n
    ensures Fills(h, Claim(own, a, n), a)
  {
  }

  // Another block lies entirely below or above b.
  lemma OutOfWay(h: Heap, base: nat, fl: seq<nat>, used: set<nat>, own: Tiles, top: nat, b: nat, x: nat)
    requires HeapOk(h, base, fl, used, own, top) && IsBlock(fl, used, b) && IsBlock(fl, used, x)
    ensures Fills(h, own, x) && (x == b || x + Size(h, x) <= b || b + Size(h, b) <= x)
  {
    SelfOwned(h, base, fl, used, own, top, b);
    SelfOwned(h, base, fl, used, own, top, x);
    if x < b { Disjoint(h, fl, used, own, x, b); } else if b < x { Disjoint(h, fl, used, own, b, x); }
  }

  // Free block j is given out whole.
  lemma Unlinked(h: Heap, base: nat, fl: seq<nat>, used: set<nat>, own: Tiles, top: nat, j: nat)
    requires HeapOk(h, base, fl, used, own, top) && AllApart(h, fl) && 0 < j < |fl| && fl[j] in h && fl[j - 1] in h
    ensures var h' := h[fl[j - 1] := h[fl[j - 1]].(ptr := h[fl[j]].ptr)];
            HeapOk(h', base, RemoveAt(fl, j), used + {fl[j]}, own, top) && AllApart(h', RemoveAt(fl, j))
                && fl[j] !in used && fl[j] !in RemoveAt(fl, j)
  {
    var h', fl' := h[fl[j - 1] := h[fl[j - 1]].(ptr := h[fl[j]].ptr)], RemoveAt(fl, j);
    assert LinkOk(h, fl, j - 1) && LinkOk(h, fl, j);
    Climbs(h, base, fl, 0, j);
    forall k | 0 <= k < |fl'| ensures LinkOk(h', fl', k) && Apart(h', fl', k) && fl'[k] != fl[j] {
      UnlinkedLink(h, base, fl, j, k);
    }
    UnlinkedTiles(h, base, fl, used, own, top, j);
  }

  lemma UnlinkedTiles(h: Heap, base: nat, fl: seq<nat>, used: set<nat>, own: Tiles, top: nat, j: nat)
    requires HeapOk(h, base, fl, used, own, top) && 0 < j < |fl| && fl[j] in h && fl[j - 1] in h
    ensures TilesOk(h[fl[j - 1] := h[fl[j - 1]].(ptr := h[fl[j]].ptr)], RemoveAt(fl, j), used + {fl[j]}, own)
            && fl[j] !in used
  {
    hide Fills;
    var h', fl' := h[fl[j - 1] := h[fl[j - 1]].(ptr := h[fl[j]].ptr)], RemoveAt(fl, j);
    FreeAt(h, base, fl, used, own, top, j);
    SelfOwned(h, base, fl, used, own, top, fl[j]);
    forall x ensures IsFree(fl', x) <==> IsFree(fl, x) && x != fl[j] { RemovedFree(h, base, fl, j, x); }
    forall x ensures Size(h', x) == Size(h, x) {}
    hide IsFree, Size;
    SameTiles(h, h', fl, fl', used, used + {fl[j]}, own);
  }

  lemma UnlinkedLink(h: Heap, base: nat, fl: seq<nat>, j: nat, k: nat)
    requires ListOk(h, base, fl) && AllApart(h, fl) && 0 < j < |fl| && fl[j] in h && fl[j - 1] in h && k + 1 < |fl|
    ensures var h' := h[fl[j - 1] := h[fl[j - 1]].(ptr := h[fl[j]].ptr)];
            LinkOk(h', RemoveAt(fl, j), k) && Apart(h', RemoveAt(fl, j), k) && RemoveAt(fl, j)[k] != fl[j]
  {
    assert LinkOk(h, fl, k) && LinkOk(h, fl, k + 1) && LinkOk(h, fl, j - 1) && LinkOk(h, fl, j) && Apart(h, fl, k)
           && Apart(h, fl, k + 1);
    if k < j { Climbs(h, base, fl, k, j); } else { Climbs(h, base, fl, j, k + 1); }
    if k < j - 1 {
      Climbs(h, base, fl, k, j - 1);
    } else if k > j - 1 {
      Climbs(h, base, fl, j - 1, k);
      Climbs(h, base, fl, j - 1, k + 1);
    }
  }

  // New memory from sbrk, above all that was there.
  lemma Gained(h: Heap, base: nat, fl: seq<nat>, used: set<nat>, own: Tiles, top: nat, a: nat, n: nat, x: nat)
    requires HeapOk(h, base, fl, used, own, top) && AllApart(h, fl) && top <= a && n > 0
    ensures HeapOk(h[a := Header(x, n)], base, fl, used + {a}, Claim(own, a, n), a + n)
            && AllApart(h[a := Header(x, n)], fl) && a !in used && a !in fl
  {
    hide TilesOk;
    var h', used', own' := h[a := Header(x, n)], used + {a}, Claim(own, a, n);
    SelfOwned(h, base, fl, used, own, top, a);
    forall k | 0 <= k < |fl| ensures LinkOk(h', fl, k) && Apart(h', fl, k) {
      assert LinkOk(h, fl, k) && Apart(h, fl, k);
    }
    GainedTiles(h, base, fl, used, own, top, a, n, x);
  }

  lemma GainedTiles(h: Heap, base: nat, fl: seq<nat>, used: set<nat>, own: Tiles, top: nat, a: nat, n: nat, x: nat)
    requires HeapOk(h, base, fl, used, own, top) && top <= a && n > 0 && |fl| >= 1 && fl[0] == base
    ensures TilesOk(h[a := Header(x, n)], fl, used + {a}, Claim(own, a, n))
  {
    hide Fills, ListOk, TilesOk;
    var h' := h[a := Header(x, n)];
    SelfOwned(h, base, fl, used, own, top, a);
    forall y ensures Size(h', y) == if y == a then n else Size(h, y) {}
    forall y: nat | IsBlock(fl, used, y) ensures y != a && Size(h', y) == Size(h, y) && Size(h', y) > 0
        && y + Size(h', y) <= a {
      SelfOwned(h, base, fl, used, own, top, y);
    }
    forall u | u in own && !(a <= u < a + n) ensures u < own[u] + Size(h', own[u]) { UnitOf(h, fl, used, own, u); }
    ClaimTiles(h, h', fl, used, own, a, n);
  }

  // ---------------------------------------------------------------- the allocator

  // How many links lead from entry j to entry k.
  function Dist(j: nat, k: nat, n: nat): nat
    requires j < n && k < n
  {
    if j <= k then k - j else k + n - j
  }

  function Next(j: nat, n: nat): nat
    requires j < n
    ensures Next(j, n) < n
  {
    if j + 1 < n then j + 1 else 0
  }

  // nunits of malloc, computed in 64 bits: a header and room for the bytes.
  function Units(nbytes: nat): (n: nat)
    ensures n >= 1 && 16 * (n - 1) >= nbytes && 16 * (n - 1) < nbytes + 16
  {
    (nbytes + 15) / 16 + 1
  }

  // The smallest amount that morecore asks for.
  function Core(n: nat): (r: nat)
    ensures r >= n && r >= 4096
  {
    if n < 4096 then 4096 else n
  }

  class Allocator {
    const base: nat
    var h: Heap
    var freep: nat
    ghost var fl: seq<nat>      // the free list from base, in address order
    ghost var used: set<nat>    // the headers of the blocks given out
    ghost var own: Tiles        // the block of each unit obtained from sbrk
    var top: nat                // the end of the process's memory, or below it

    ghost predicate Ready()
      reads this
    {
      HeapOk(h, base, fl, used, own, top) && AllApart(h, fl) && freep in fl
    }

    ghost predicate Ok()
      reads this
    {
      if freep == 0 then base > 0 && base < top && used == {} && own == map[] else Ready()
    }

    constructor (base: nat, top: nat)
      requires 0 < base < top
      ensures Ok() && used == {} && own == map[] && this.base == base && this.top == top
    {
      this.base, h, freep, this.top := base, map[], 0, top;
      fl, used, own := [], {}, map[];
    }

    // free's search, from freep around the circle: the entry after which bp belongs.
    method FindPlace(bp: nat) returns (p: nat, ghost k: nat)
      requires Ready() && bp in used
      ensures Place(fl, k, bp) && p == fl[k]
    {
      hide TilesOk, AllApart, HeapOk;
      ghost var j: nat :| j < |fl| && fl[j] == freep;
      ListOf(h, base, fl, used, own, top);
      InUse(h, base, fl, used, own, top, bp);
      k := PlaceExists(h, base, fl, bp, |fl|);
      p := freep;
      hide ListOk, Place;
      SearchStops(h, base, fl, bp, k, j);
      Entries(h, base, fl, used, own, top, j);
      while !(bp > p && bp < h[p].ptr)
        invariant j < |fl| && k < |fl| && p == fl[j] && LinkOk(h, fl, j)
        invariant j == k <==> (p < bp < h[p].ptr) || (p >= h[p].ptr && (bp > p || bp < h[p].ptr))
        decreases Dist(j, k, |fl|)
      {
        if p >= h[p].ptr && (bp > p || bp < h[p].ptr) { break; }
        j := Next(j, |fl|);
        Entries(h, base, fl, used, own, top, j);
        SearchStops(h, base, fl, bp, k, j);
        p := h[p].ptr;
      }
    }

    // free, on the header bp of a block in use.
    method Free(bp: nat)
      requires Ready() && bp in used
      modifies this`h, this`freep, this`fl, this`used, this`own
      ensures Ready() && freep != 0 && used == old(used) - {bp} && own.Keys == old(own).Keys
      ensures forall x :: x in used ==> x in h && x in old(h) && h[x] == old(h)[x]
      ensures bp in old(h) && (old(h)[bp].size <= Size(h, freep)
                               || (freep in h && old(h)[bp].size <= Size(h, h[freep].ptr)))
    {
      hide TilesOk, AllApart, HeapOk, ListOk;
      var p;
      ghost var k;
      p, k := FindPlace(bp);
      ghost var fl', own' := FreeWorks(h, base, fl, used, own, top, k, bp);
      Entries(FreeHeap(h, p, bp), base, fl', used - {bp}, own', top, k);
      OthersSame(h, base, fl, used, own, top, k, bp);
      ghost var h0 := h;
      var q := h[p].ptr;
      if bp + h[bp].size == q {
        h := h[bp := Header(h[q].ptr, h[bp].size + h[q].size)];
      } else {
        h := h[bp := Header(q, h[bp].size)];
      }
      if p + h[p].size == bp {
        h := h[p := Header(h[bp].ptr, h[p].size + h[bp].size)];
      } else {
        h := h[p := h[p].(ptr := bp)];
      }
      freep := p;
      assert h == FreeHeap(h0, p, bp);
      fl, own, used := fl', own', used - {bp};
      NotNullFree(h, base, fl, used, own, top, p);
    }

    // morecore; sbrk returns the address of new memory above the old, or nothing.
    method Morecore(nu: nat, sbrk: Option<nat>) returns (r: nat)
      requires Ready() && (sbrk.Some? ==> sbrk.value >= top)
      modifies this
      ensures Ready() && used == old(used) && (r == 0 <==> sbrk.None?)
      ensures forall x :: x in used ==> x in h && x in old(h) && h[x] == old(h)[x]
      ensures r != 0 ==> r == freep && (nu <= Size(h, freep) || (freep in h && nu <= Size(h, h[freep].ptr)))
      ensures r != 0 ==> (forall u :: u in own <==> u in old(own) || sbrk.value <= u < sbrk.value + Core(nu))
                         && top == sbrk.value + Core(nu)
      ensures r == 0 ==> own == old(own) && top == old(top) && h == old(h) && fl == old(fl) && freep == old(freep)
    {
      if sbrk.None? { return 0; }
      var hp, n := sbrk.value, Core(nu);
      hide TilesOk, AllApart, HeapOk;
      Gained(h, base, fl, used, own, top, hp, n, if hp in h then h[hp].ptr else 0);
      NotNull(h, base, fl, used, own, top, hp);
      h := h[hp := Header(if hp in h then h[hp].ptr else 0, n)];
      used, own := used + {hp}, Claim(own, hp, n);
      top := hp + n;
      Free(hp);
      assert used == old(used);
      r := freep;
      NotNullFree(h, base, fl, used, own, top, freep);
    }

    // One pass of malloc's search, from the entry after freep to freep: the first block of n units
    // or more, with its predecessor; if there is none, no free block is that large.
    method Search(n: nat) returns (found: bool, prevp: nat, p: nat, ghost j: nat)
      requires Ready() && n > 0
      ensures found ==> 0 < j < |fl| && p == fl[j] && prevp == fl[j - 1] && n <= Size(h, p)
      ensures !found ==> forall k :: 0 <= k < |fl| ==> Size(h, fl[k]) < n
    {
      hide TilesOk, AllApart, HeapOk, ListOk, Dist, Next;
      ghost var i: nat :| i < |fl| && fl[i] == freep;
      ghost var len := |fl|;
      Entries(h, base, fl, used, own, top, i);
      NextEntry(fl, i);
      prevp, p, j := freep, h[freep].ptr, Next(i, len);
      ghost var start := j;
      Entries(h, base, fl, used, own, top, j);
      Around(h, fl, i, n);
      while true
        invariant j < len && p == fl[j] && LinkOk(h, fl, j) && i < len && start == Next(i, len)
                  && prevp == fl[if j == 0 then len - 1 else j - 1]
        invariant Passed(h, fl, start, j, n)
        decreases Dist(j, i, len)
      {
        if h[p].size >= n { return true, prevp, p, j; }
        if p == freep {
          SameEntry(h, base, fl, used, own, top, i, j);
          AllVisited(h, fl, i, n);
          return false, prevp, p, j;
        }
        OneFurther(h, fl, i, j, n);
        j := Next(j, len);
        Entries(h, base, fl, used, own, top, j);
        prevp := p;
        p := h[p].ptr;
      }
    }

    // Give out n units of free block p: the whole block, or its upper end.
    method Give(prevp: nat, p: nat, n: nat, ghost j: nat) returns (bp: nat)
      requires Ready() && 0 < j < |fl| && p == fl[j] && prevp == fl[j - 1] && 0 < n <= Size(h, p)
      modifies this`h, this`freep, this`fl, this`used, this`own
      ensures Ready() && bp !in old(used) && used == old(used) + {bp} && bp in h && h[bp].size == n
              && own.Keys == old(own).Keys
      ensures forall x :: x in old(used) ==> x in h && x in old(h) && h[x] == old(h)[x]
    {
      hide TilesOk, AllApart, HeapOk, ListOk;
      Entries(h, base, fl, used, own, top, j - 1);
      forall x | x in used ensures x in h && x !in fl { InUse(h, base, fl, used, own, top, x); }
      FreeAt(h, base, fl, used, own, top, j);
      if h[p].size == n {
        Unlinked(h, base, fl, used, own, top, j);
        h := h[prevp := h[prevp].(ptr := h[p].ptr)];
        fl, used := RemoveAt(fl, j), used + {p};
        bp := p;
      } else {
        Carved(h, base, fl, used, own, top, j, n);
        Within(h, base, fl, used, own, top, p, n);
        h := h[p := h[p].(size := h[p].size - n)];
        bp := p + h[p].size;
        h := h[bp := Header(if bp in h then h[bp].ptr else 0, n)];
        used, own := used + {bp}, Claim(own, bp, n);
      }
      freep := prevp;
    }

    // There is a free block of n units or more.
    ghost predicate Fits(n: nat)
      reads this
    {
      freep != 0 && exists k :: 0 <= k < |fl| && Size(h, fl[k]) >= n
    }

    // malloc.  The search goes around once; if it finds nothing, morecore adds a block and the
    // search goes on from freep, where it must succeed, even if the new block was merged into the
    // one that freep names.
    method Malloc(nbytes: nat, sbrk: Option<nat>) returns (r: nat)
      requires Ok() && 16 * Core(Units(nbytes)) < 0x8000_0000 && (sbrk.Some? ==> sbrk.value >= top)
      modifies this
      ensures Ok() && freep != 0
      ensures r == 0 <==> sbrk.None? && !old(Fits(Units(nbytes)))
      ensures r == 0 ==> used == old(used)
      ensures r != 0 ==> r - 1 !in old(used) && used == old(used) + {r - 1} && r - 1 in h
                         && h[r - 1].size == Units(nbytes)
      ensures old(Fits(Units(nbytes))) ==> r != 0 && own.Keys == old(own).Keys && top == old(top)
      ensures forall x :: x in old(used) ==> x in h && x in old(h) && h[x] == old(h)[x]
      ensures forall u :: u in old(own) ==> u in own
    {
      hide TilesOk, AllApart, HeapOk;
      var n := Units(nbytes);
      if freep == 0 {
        h := h[base := Header(base, 0)];
        freep := base;
        fl := [base];
        FirstList(h, base, top);
      }
      NotNullFree(h, base, fl, used, own, top, freep);
      var found, prevp, p;
      ghost var j;
      found, prevp, p, j := Search(n);
      if !found {
        var m := Morecore(n, sbrk);
        if m == 0 { return 0; }
        found, prevp, p, j := Search(n);
        NextInList(h, base, fl, used, own, top, freep);
      }
      var bp := Give(prevp, p, n, j);
      NotNullFree(h, base, fl, used, own, top, freep);
      r := bp + 1;
    }
  }

  lemma ListOf(h: Heap, base: nat, fl: seq<nat>, used: set<nat>, own: Tiles, top: nat)
    requires HeapOk(h, base, fl, used, own, top)
    ensures ListOk(h, base, fl) && |fl| >= 1
  {
  }

  lemma InUse(h: Heap, base: nat, fl: seq<nat>, used: set<nat>, own: Tiles, top: nat, b: nat)
    requires HeapOk(h, base, fl, used, own, top) && b in used
    ensures b in h && h[b].size > 0 && b !in fl && b > base
  {
    SelfOwned(h, base, fl, used, own, top, b);
  }

  // free writes only the headers of the predecessor and of the block itself.
  lemma OthersSame(h: Heap, base: nat, fl: seq<nat>, used: set<nat>, own: Tiles, top: nat, k: nat, b: nat)
    requires HeapOk(h, base, fl, used, own, top) && k < |fl| && fl[k] in h && b in h
             && (b + h[b].size == h[fl[k]].ptr ==> h[fl[k]].ptr in h)
    ensures forall x :: x in used && x != b ==> x in h && x in FreeHeap(h, fl[k], b) && FreeHeap(h, fl[k], b)[x] == h[x]
  {
    forall x | x in used && x != b ensures x in h && x != fl[k] { InUse(h, base, fl, used, own, top, x); }
  }

  lemma NotNull(h: Heap, base: nat, fl: seq<nat>, used: set<nat>, own: Tiles, top: nat, a: nat)
    requires HeapOk(h, base, fl, used, own, top) && a >= top
    ensures a > 0 && a !in used && forall x :: x in used ==> x in h && x != a
  {
    forall x | x in used ensures x in h && x < top {
      InUse(h, base, fl, used, own, top, x);
      SelfOwned(h, base, fl, used, own, top, x);
    }
  }

  lemma NotNullFree(h: Heap, base: nat, fl: seq<nat>, used: set<nat>, own: Tiles, top: nat, x: nat)
    requires HeapOk(h, base, fl, used, own, top) && x in fl
    ensures x > 0
  {
    SelfOwned(h, base, fl, used, own, top, x);
  }

  // The entries from start up to j have less than n units.
  ghost predicate Passed(h: Heap, fl: seq<nat>, start: nat, j: nat, n: nat)
    requires start < |fl| && j < |fl|
  {
    forall k :: 0 <= k < |fl| && Dist(start, k, |fl|) < Dist(start, j, |fl|) ==> Size(h, fl[k]) < n
  }

  lemma NextEntry(fl: seq<nat>, j: nat)
    requires j < |fl|
    ensures Succ(fl, j) == fl[Next(j, |fl|)] && j == if Next(j, |fl|) == 0 then |fl| - 1 else Next(j, |fl|) - 1
  {
  }

  lemma Around(h: Heap, fl: seq<nat>, i: nat, n: nat)
    requires i < |fl|
    ensures Passed(h, fl, Next(i, |fl|), Next(i, |fl|), n)
  {
  }

  lemma OneFurther(h: Heap, fl: seq<nat>, i: nat, j: nat, n: nat)
    requires i < |fl| && j < |fl| && i != j && Passed(h, fl, Next(i, |fl|), j, n) && Size(h, fl[j]) < n
    ensures Passed(h, fl, Next(i, |fl|), Next(j, |fl|), n) && Dist(Next(j, |fl|), i, |fl|) < Dist(j, i, |fl|)
    ensures Succ(fl, j) == fl[Next(j, |fl|)] && j == if Next(j, |fl|) == 0 then |fl| - 1 else Next(j, |fl|) - 1
  {
    hide Size;
    var s := Next(i, |fl|);
    forall k | 0 <= k < |fl| && Dist(s, k, |fl|) < Dist(s, Next(j, |fl|), |fl|) ensures Size(h, fl[k]) < n {
      assert k == j || Dist(s, k, |fl|) < Dist(s, j, |fl|);
    }
  }

  lemma AllVisited(h: Heap, fl: seq<nat>, i: nat, n: nat)
    requires i < |fl| && Passed(h, fl, Next(i, |fl|), i, n) && Size(h, fl[i]) < n
    ensures forall k :: 0 <= k < |fl| ==> Size(h, fl[k]) < n
  {
    hide Size;
    forall k | 0 <= k < |fl| ensures Size(h, fl[k]) < n {
      assert k == i || Dist(Next(i, |fl|), k, |fl|) < Dist(Next(i, |fl|), i, |fl|);
    }
  }

  // Addresses in the list are distinct.
  lemma SameEntry(h: Heap, base: nat, fl: seq<nat>, used: set<nat>, own: Tiles, top: nat, i: nat, j: nat)
    requires HeapOk(h, base, fl, used, own, top) && i < |fl| && j < |fl| && fl[i] == fl[j]
    ensures i == j
  {
    if i < j { Climbs(h, base, fl, i, j); } else if j < i { Climbs(h, base, fl, j, i); }
  }

  // The upper end of a free block is no header in use.
  lemma Within(h: Heap, base: nat, fl: seq<nat>, used: set<nat>, own: Tiles, top: nat, b: nat, n: nat)
    requires HeapOk(h, base, fl, used, own, top) && IsFree(fl, b) && b in h && 0 < n < h[b].size
    ensures b + h[b].size - n !in used && b !in used && Claim(own, b + h[b].size - n, n).Keys == own.Keys
  {
    SelfOwned(h, base, fl, used, own, top, b);
    SelfOwned(h, base, fl, used, own, top, b + h[b].size - n);
    assert own[b + h[b].size - n] == b;
  }

  lemma FreeAt(h: Heap, base: nat, fl: seq<nat>, used: set<nat>, own: Tiles, top: nat, j: nat)
    requires HeapOk(h, base, fl, used, own, top) && 0 < j < |fl|
    ensures IsFree(fl, fl[j])
  {
    Climbs(h, base, fl, 0, j);
  }

  lemma FirstList(h: Heap, base: nat, top: nat)
    requires 0 < base < top && base in h && h[base] == Header(base, 0)
    ensures HeapOk(h, base, [base], {}, map[], top) && AllApart(h, [base])
  {
    assert LinkOk(h, [base], 0);
  }

  lemma NextInList(h: Heap, base: nat, fl: seq<nat>, used: set<nat>, own: Tiles, top: nat, p: nat)
    requires HeapOk(h, base, fl, used, own, top) && p in fl
    ensures p in h && h[p].ptr in fl
  {
    var k :| 0 <= k < |fl| && fl[k] == p;
    assert LinkOk(h, fl, k);
  }

  // ---------------------------------------------------------------- any sequence of calls

  // malloc of n bytes, where sbrk fails or leaves a gap; free of the k-th block still in use.
  datatype Request = Alloc(n: nat, gap: Option<nat>) | Release(k: nat)

  // What a caller holds: the address that malloc returned and the bytes asked for.
  datatype Block = Block(ptr: nat, bytes: nat)

  // What malloc can be asked for: below the int range of sbrk.
  predicate InRange(n: nat) { 16 * Core(Units(n)) < 0x8000_0000 }

  function Without(live: seq<Block>, k: nat): seq<Block>
    requires k < |live|
  {
    live[..k] + live[k + 1..]
  }

  // What is held after one request, when it returned r.
  function Held(live: seq<Block>, q: Request, r: nat): seq<Block> {
    match q
    case Alloc(n, _) => if r != 0 then live + [Block(r, n)] else live
    case Release(k) => if k < |live| then Without(live, k) else live
  }

  // What is held after all requests: the blocks returned and not freed, in the order of their return.
  function Live(requests: seq<Request>, results: seq<nat>): seq<Block>
    requires |results| == |requests|
  {
    if requests == [] then []
    else var n := |requests| - 1; Held(Live(requests[..n], results[..n]), requests[n], results[n])
  }

  // The headers of the blocks held.
  ghost function Headers(live: seq<Block>): (s: set<nat>)
    ensures forall b: nat :: b in s <==> exists i :: 0 <= i < |live| && live[i].ptr == b + 1
  {
    if live == [] then {}
    else
      var n := |live| - 1;
      assert live == live[..n] + [live[n]];
      if live[n].ptr == 0 then Headers(live[..n]) else Headers(live[..n]) + {live[n].ptr - 1}
  }

  predicate Different(live: seq<Block>) { forall i, j :: 0 <= i < j < |live| ==> live[i].ptr != live[j].ptr }

  lemma NoHeaders()
    ensures Headers([]) == {}
  {
  }

  lemma AddHeader(live: seq<Block>, e: Block)
    requires e.ptr > 0
    ensures Headers(live + [e]) == Headers(live) + {e.ptr - 1}
    ensures Different(live) && e.ptr - 1 !in Headers(live) ==> Different(live + [e])
  {
    hide Headers;
    var r := live + [e];
    forall b: nat ensures b in Headers(r) <==> b in Headers(live) || b == e.ptr - 1 {
      if b in Headers(live) { var i :| 0 <= i < |live| && live[i].ptr == b + 1; assert r[i].ptr == b + 1; }
      if b == e.ptr - 1 { assert r[|live|].ptr == b + 1; }
    }
  }

  lemma DropHeader(live: seq<Block>, i: nat)
    requires i < |live| && live[i].ptr > 0 && Different(live)
    ensures Headers(Without(live, i)) == Headers(live) - {live[i].ptr - 1} && Different(Without(live, i))
  {
    hide Headers;
    var r := Without(live, i);
    forall b: nat ensures b in Headers(r) <==> b in Headers(live) && b != live[i].ptr - 1 {
      if b in Headers(live) && b != live[i].ptr - 1 {
        var j :| 0 <= j < |live| && live[j].ptr == b + 1;
        assert r[if j < i then j else j - 1] == live[j];
      }
    }
  }

  // A held block is at least as large as was asked for.
  predicate LargeEnough(h: Heap, e: Block) { e.ptr > 0 && e.ptr - 1 in h && e.bytes <= 16 * (h[e.ptr - 1].size - 1) }

  ghost predicate AllLarge(h: Heap, live: seq<Block>) { forall i :: 0 <= i < |live| ==> LargeEnough(h, live[i]) }

  // The bytes of two held blocks do not overlap; 16 * ptr is the address of the first.
  predicate NoOverlap(e: Block, f: Block) { 16 * e.ptr + e.bytes <= 16 * f.ptr || 16 * f.ptr + f.bytes <= 16 * e.ptr }

  lemma HeldApart(h: Heap, base: nat, fl: seq<nat>, used: set<nat>, own: Tiles, top: nat, live: seq<Block>, i: nat,
                  j: nat)
    requires HeapOk(h, base, fl, used, own, top) && used == Headers(live) && AllLarge(h, live) && Different(live)
    requires i < j < |live|
    ensures NoOverlap(live[i], live[j])
  {
    hide TilesOk, Headers, LinkOk;
    var a, b := live[i].ptr - 1, live[j].ptr - 1;
    assert LargeEnough(h, live[i]) && LargeEnough(h, live[j]);
    assert a in used && b in used;
    InUse(h, base, fl, used, own, top, a);
    InUse(h, base, fl, used, own, top, b);
    if a < b { Disjoint(h, fl, used, own, a, b); } else { Disjoint(h, fl, used, own, b, a); }
  }

  // One request, of which malloc in range returns 0 only when sbrk failed.  A request out of range, for
  // which malloc would pass sbrk a truncated number of bytes, is not performed.
  method Serve(a: Allocator, q: Request, live: seq<Block>) returns (r: nat)
    requires a.Ok() && a.used == Headers(live) && Different(live) && (live != [] ==> a.freep != 0)
             && AllLarge(a.h, live)
    modifies a
    ensures a.Ok() && a.used == Headers(Held(live, q, r)) && Different(Held(live, q, r))
            && AllLarge(a.h, Held(live, q, r))
    ensures Held(live, q, r) != [] ==> a.freep != 0
    ensures q.Alloc? && InRange(q.n) ==> (r == 0 <==> q.gap.None? && !old(a.Fits(Units(q.n))))
  {
    hide HeapOk, AllApart, Headers, Different, AllLarge, Without, Units, Core;
    r := 0;
    match q
    case Alloc(n, gap) =>
      if InRange(n) {
        ghost var h0 := a.h;
        r := a.Malloc(n, if gap.None? then None else Some(a.top + gap.value));
        StillLarge(h0, a.h, live, Headers(live));
        if r != 0 {
          AddHeader(live, Block(r, n));
          LargeMore(a.h, live, Block(r, n));
        }
      }
    case Release(k) =>
      if k < |live| {
        IsHeld(a.h, live, k);
        ghost var h0 := a.h;
        DropHeader(live, k);
        a.Free(live[k].ptr - 1);
        LargeWithout(h0, live, k);
        StillLarge(h0, a.h, Without(live, k), Headers(Without(live, k)));
      }
  }

  lemma LargeMore(h: Heap, live: seq<Block>, e: Block)
    requires AllLarge(h, live) && LargeEnough(h, e)
    ensures AllLarge(h, live + [e])
  {
  }

  lemma IsHeld(h: Heap, live: seq<Block>, k: nat)
    requires AllLarge(h, live) && k < |live|
    ensures LargeEnough(h, live[k]) && live[k].ptr - 1 in Headers(live)
  {
    hide Headers;
  }

  lemma LargeWithout(h: Heap, live: seq<Block>, k: nat)
    requires AllLarge(h, live) && k < |live|
    ensures AllLarge(h, Without(live, k))
  {
    forall i | 0 <= i < |live| - 1 ensures LargeEnough(h, Without(live, k)[i]) {
      assert LargeEnough(h, live[if i < k then i else i + 1]);
    }
  }

  lemma StillLarge(h: Heap, h': Heap, live: seq<Block>, used: set<nat>)
    requires AllLarge(h, live) && used == Headers(live) && forall x :: x in used ==> x in h && x in h' && h'[x] == h[x]
    ensures AllLarge(h', live)
  {
    hide Headers;
    forall i | 0 <= i < |live| ensures LargeEnough(h', live[i]) {
      assert LargeEnough(h, live[i]);
      assert live[i].ptr - 1 in used;
    }
  }

  // Perform any list of calls: the blocks in use are exactly those that the results say were given
  // out and not freed, all different, each large enough and none overlapping another; and malloc
  // fails only when sbrk does.  Requests out of range are passed over.
  method Run(a: Allocator, requests: seq<Request>) returns (results: seq<nat>)
    requires a.Ok() && a.used == {}
    modifies a
    ensures a.Ok() && |results| == |requests|
    ensures var live := Live(requests, results);
            && a.used == Headers(live) && Different(live) && AllLarge(a.h, live)
            && forall i, j :: 0 <= i < j < |live| ==> NoOverlap(live[i], live[j])
    ensures forall k :: && 0 <= k < |requests| && requests[k].Alloc?
                        && requests[k].gap.Some? && InRange(requests[k].n)
                        ==> results[k] != 0
  {
    hide HeapOk, AllApart, Headers, Live, Different, AllLarge;
    results := [];
    NoHeaders();
    var held: seq<Block> := [];
    NoneHeld(requests, a.h);
    for k := 0 to |requests|
      invariant a.Ok() && |results| == k && held == Live(requests[..k], results) && a.used == Headers(held)
      invariant Different(held) && AllLarge(a.h, held) && (held != [] ==> a.freep != 0)
      invariant forall i :: 0 <= i < k && requests[i].Alloc? && requests[i].gap.Some? && InRange(requests[i].n) ==>
                              results[i] != 0
    {
      var r := Serve(a, requests[k], held);
      LiveNext(requests, results, k, r);
      held := Held(held, requests[k], r);
      results := results + [r];
    }
    assert requests[..|requests|] == requests;
    if held != [] {
      forall i, j | 0 <= i < j < |held| ensures NoOverlap(held[i], held[j]) {
        HeldApart(a.h, a.base, a.fl, a.used, a.own, a.top, held, i, j);
      }
    }
  }

  lemma NoneHeld(requests: seq<Request>, h: Heap)
    ensures Live(requests[..0], []) == [] && Different([]) && AllLarge(h, [])
  {
  }

  lemma LiveNext(requests: seq<Request>, results: seq<nat>, k: nat, r: nat)
    requires |results| == k < |requests|
    ensures Live(requests[..k + 1], results + [r]) == Held(Live(requests[..k], results), requests[k], r)
  {
    assert requests[..k + 1][..k] == requests[..k] && (results + [r])[..k] == results;
  }
}
