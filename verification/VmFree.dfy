/** Freeing page tables (freewalk and uvmfree of kernel/vm.c, proc_pagetable and
    proc_freepagetable of kernel/proc.c): every page of a page table goes back to the free list. */
module VmFree {
  import opened VmPages
  import opened VmTables
  import opened VmSpace

  // q hangs from table page p, directly or through one other table page, at an entry below n.
  predicate Under(own: Owners, p: nat, q: nat, n: nat) {
    && q in own && own[q].Table?
    && (|| (own[q].parent == p && own[q].idx < n)
        || (own[q].parent in own && own[own[q].parent].Table? && own[own[q].parent].parent == p
            && own[own[q].parent].idx < n))
  }

  // The table pages that hang from p below entry n were freed, and no others.
  ghost predicate FreedUpTo(own: Owners, own': Owners, p: nat, n: nat) {
    own'.Keys == own.Keys && forall q :: q in own ==> own'[q] == if Under(own, p, q, n) then Free else own[q]
  }

  // ... and p itself.
  ghost predicate FreedTree(own: Owners, own': Owners, p: nat) {
    own'.Keys == own.Keys && forall q :: q in own ==>
                                           own'[q] == if q == p || Under(own, p, q, ENTRIES) then Free else own[q]
  }

  // No mapping is left in the lowest-level table pages at or below p.
  ghost predicate NoLeaves(m: Mem, own: Owners, p: nat) {
    forall q, i :: q in own && IsTable(own, q, 0) && (q == p || Under(own, p, q, ENTRIES)) && 0 <= i < ENTRIES ==>
                     At(m, q, i) == 0
  }

  // The entries being cleared are in table pages above this level.
  ghost predicate HolesAbove(own: Owners, hole: Holes, level: nat) {
    forall h :: h in hole ==> h.0 in own && Level(own[h.0]) > level && (own[h.0].Root? || own[h.0].Table?)
  }

  lemma HoleMore(m: Mem, own: Owners, hole: Holes, h: (nat, nat))
    requires TreesOk(m, own, hole)
    ensures TreesOk(m, own, hole + {h})
  {
    forall p | p in own ensures PageOk(m, own, hole + {h}, p) { assert PageOk(m, own, hole, p); }
  }

  lemma HoleFilled(m: Mem, own: Owners, hole: Holes, p: nat, i: nat)
    requires TreesOk(m, own, hole) && p in own && p in m && i < |m[p]| && (own[p].Root? || own[p].Table?)
    requires forall q :: q in own && (own[q].Table? || own[q].User?) ==> !(own[q].parent == p && own[q].idx == i)
    ensures TreesOk(m[p := SetWord(m[p], i, 0)], own, hole - {(p, i)})
  {
    var m' := m[p := SetWord(m[p], i, 0)];
    forall x | x in own ensures PageOk(m', own, hole - {(p, i)}, x) {
      assert PageOk(m, own, hole, x);
      if own[x].Root? || own[x].Table? {
        forall j: nat | j < ENTRIES && (x, j) !in hole - {(p, i)} ensures EntryOk(m', own, x, Level(own[x]), j) {
          if (x, j) != (p, i) { assert EntryOk(m, own, x, Level(own[x]), j); }
        }
      }
    }
  }

  // The state of freewalk's loop over the entries of p.
  ghost predicate Walking(m: Mem, m': Mem, own: Owners, own': Owners, p: nat, n: nat) {
    && FreedUpTo(own, own', p, n) && m'.Keys == m.Keys && p in m && |m[p]| == ENTRIES == |m'[p]|
    && (forall j :: 0 <= j < ENTRIES ==> m'[p][j] == if j < n then 0 else m[p][j])
    && (forall x :: x in m && x != p && !Under(own, p, x, n) ==> m'[x] == m[x])
  }

  lemma WalkStart(m: Mem, own: Owners, p: nat)
    requires p in m && |m[p]| == ENTRIES
    ensures Walking(m, m, own, own, p, 0)
  {
  }

  // What hangs from an entry is what the entry points to.
  lemma HangsThere(m: Mem, own: Owners, hole: Holes, p: nat, i: nat, q: nat)
    requires TreesOk(m, own, hole) && q in own && (own[q].Table? || own[q].User?) && own[q].parent == p
             && own[q].idx == i
    ensures p in m && i < |m[p]| && Valid(m[p][i]) && PageOf(m[p][i]) == q
  {
    assert PageOk(m, own, hole, q);
  }

  // An empty entry: nothing to do.
  lemma WalkSkip(m: Mem, m': Mem, own: Owners, own': Owners, hole: Holes, p: nat, n: nat)
    requires Walking(m, m', own, own', p, n) && TreesOk(m', own', hole) && n < ENTRIES && p in own && !Valid(m'[p][n])
             && m'[p][n] == 0
    ensures Walking(m, m', own, own', p, n + 1)
  {
    forall q | q in own ensures Under(own, p, q, n + 1) == Under(own, p, q, n) {
      NothingThere(m, m', own, own', hole, p, n, q);
    }
  }

  lemma NothingThere(m: Mem, m': Mem, own: Owners, own': Owners, hole: Holes, p: nat, n: nat, q: nat)
    requires Walking(m, m', own, own', p, n) && TreesOk(m', own', hole) && n < ENTRIES && p in own && !Valid(m'[p][n])
             && q in own
    ensures Under(own, p, q, n + 1) == Under(own, p, q, n)
  {
    if own[q].Table? && own[q].parent == p && own[q].idx == n && own'[q] == own[q] {
      HangsThere(m', own', hole, p, n, q);
    }
    if own[q].Table? && own[q].parent in own {
      var c := own[q].parent;
      if own[c].Table? && own[c].parent == p && own[c].idx == n && own'[c] == own[c] {
        HangsThere(m', own', hole, p, n, c);
      }
    }
  }

  // Only the pages of the tree at c changed.
  ghost predicate OnlyTree(m: Mem, m': Mem, own: Owners, c: nat) {
    m'.Keys == m.Keys && forall x :: x in m && x != c && !Under(own, c, x, ENTRIES) ==> m'[x] == m[x]
  }

  // What the tree at a child adds to what was freed.
  lemma UnderChild(m: Mem, own: Owners, own1: Owners, hole: Holes, p: nat, n: nat, c: nat, level: nat, q: nat)
    requires FreedUpTo(own, own1, p, n) && TreesOk(m, own1, hole) && 0 < level <= 2 && IsTable(own1, p, level)
             && n < ENTRIES
    requires c in own1 && own1[c] == Table(p, n, level - 1) && p in m && n < |m[p]| && m[p][n] == Entry(c, PTE_V)
             && q in own && p in own
    ensures Under(own, p, q, n + 1) <==> Under(own, p, q, n) || q == c || Under(own1, c, q, ENTRIES)
    ensures Under(own1, c, q, ENTRIES) ==> !Under(own, p, q, n)
  {
    assert PageOk(m, own1, hole, c) && PageOk(m, own1, hole, q);
    assert own[c] == own1[c];
    if own1[q].Table? {
      var x := own1[q].parent;
      assert PageOk(m, own1, hole, x);
      if own1[x].Table? { assert PageOk(m, own1, hole, own1[x].parent); }
      if x == p && own1[q].idx == n { HangsThere(m, own1, hole, p, n, q); }
      if own1[x].Table? && own1[x].parent == p && own1[x].idx == n { HangsThere(m, own1, hole, p, n, x); }
    }
  }

  lemma WalkChild(m: Mem, m1: Mem, m2: Mem, own: Owners, own1: Owners, own2: Owners, hole: Holes, p: nat, n: nat,
                  c: nat, level: nat)
    requires Walking(m, m1, own, own1, p, n) && TreesOk(m1, own1, hole) && 0 < level <= 2 && IsTable(own1, p, level)
             && n < ENTRIES && p in own
    requires c in own1 && own1[c] == Table(p, n, level - 1) && m1[p][n] == Entry(c, PTE_V)
    requires FreedTree(own1, own2, c) && OnlyTree(m1, m2, own1, c)
    ensures p in m2 && m2[p] == m1[p] && own2[p] == own1[p]
            && Walking(m, m2[p := SetWord(m2[p], n, 0)], own, own2, p, n + 1)
  {
    hide TreesOk;
    forall q | q in own ensures own2[q] == if Under(own, p, q, n + 1) then Free else own[q] {
      UnderChild(m1, own, own1, hole, p, n, c, level, q);
    }
    UnderChild(m1, own, own1, hole, p, n, c, level, p);
    NotUnderSelf(m1, own1, hole, c, p, level);
    var m3 := m2[p := SetWord(m2[p], n, 0)];
    forall x | x in m && x != p && !Under(own, p, x, n + 1) ensures m3[x] == m[x] {
      if x in own { UnderChild(m1, own, own1, hole, p, n, c, level, x); }
    }
  }

  // A table page is not below its own child.
  lemma NotUnderSelf(m: Mem, own: Owners, hole: Holes, c: nat, p: nat, level: nat)
    requires TreesOk(m, own, hole) && level <= 2 && IsTable(own, p, level) && c in own && own[c].Table?
             && own[c].level + 1 == level
    ensures p != c && !Under(own, c, p, ENTRIES)
  {
    assert PageOk(m, own, hole, p);
    if own[p].Table? { assert PageOk(m, own, hole, own[p].parent); }
  }

  lemma FreeOneChild(m: Mem, own: Owners, own2: Owners, hole: Holes, p: nat, n: nat, c: nat)
    requires TreesOk(m, own, hole) && p in m && n < |m[p]| && m[p][n] == Entry(c, PTE_V) && c in own
             && FreedTree(own, own2, c)
    ensures forall q :: q in own2 && (own2[q].Table? || own2[q].User?) ==> !(own2[q].parent == p && own2[q].idx == n)
  {
    forall q | q in own2 && (own2[q].Table? || own2[q].User?) ensures !(own2[q].parent == p && own2[q].idx == n) {
      if own2[q].parent == p && own2[q].idx == n { HangsThere(m, own, hole, p, n, q); }
    }
  }

  // All entries of p are empty, so nothing hangs from it.
  lemma AllEmpty(m: Mem, own: Owners, hole: Holes, p: nat)
    requires TreesOk(m, own, hole) && p in m && |m[p]| == ENTRIES && forall j :: 0 <= j < ENTRIES ==> m[p][j] == 0
    ensures Childless(own, p)
  {
    forall q | q in own && (own[q].Table? || own[q].User?) ensures own[q].parent != p {
      assert PageOk(m, own, hole, q);
    }
  }

  // freewalk
  method FreeWalk(mem: Memory, p: nat, level: nat) returns (panic: bool)
    requires mem.Ok() && level <= 2 && IsTable(mem.own, p, level) && HolesAbove(mem.own, mem.hole, level)
             && NoLeaves(mem.m, mem.own, p)
    requires mem.own[p].Table? ==> (mem.own[p].parent, mem.own[p].idx) in mem.hole
    modifies mem
    ensures mem.Ok() && mem.hole == old(mem.hole) && !panic && FreedTree(old(mem.own), mem.own, p)
            && OnlyTree(old(mem.m), mem.m, old(mem.own), p)
    decreases level
  {
    hide Chain, TreesOk, Walking, NoLeaves, FreedTree, OnlyTree, Childless, HolesAbove;
    ghost var m0, own0, hole0 := mem.m, mem.own, mem.hole;
    IsAPage(m0, own0, hole0, p);
    WalkStart(m0, own0, p);
    for i := 0 to ENTRIES
      invariant mem.Ok() && mem.hole == hole0 && Walking(m0, mem.m, own0, mem.own, p, i)
    {
      ghost var m1, own1 := mem.m, mem.own;
      WalkEntry(m0, m1, own0, own1, hole0, p, i, level);
      var e := mem.m[p][i];
      if Valid(e) && !Leafy(e) {
        var c := PageOf(e);
        HoleMore(m1, own1, hole0, (p, i));
        mem.hole := mem.hole + {(p, i)};
        BelowChild(m0, m1, own0, own1, hole0, p, i, c, level);
        panic := FreeWalk(mem, c, level - 1);
        WalkChild(m0, m1, mem.m, own0, own1, mem.own, hole0, p, i, c, level);
        FreeOneChild(m1, own1, mem.own, hole0, p, i, c);
        HoleFilled(mem.m, mem.own, mem.hole, p, i);
        assert hole0 + {(p, i)} - {(p, i)} == hole0;
        ChainKept(mem.m, mem.m[p := SetWord(mem.m[p], i, 0)], mem.own, mem.own, mem.head, mem.free);
        mem.m := mem.m[p := SetWord(mem.m[p], i, 0)];
        mem.hole := hole0;
      } else if Valid(e) {
        return true;
      } else {
        WalkSkip(m0, m1, own0, own1, hole0, p, i);
      }
    }
    ghost var m1, own1 := mem.m, mem.own;
    WalkEnd(m0, m1, own0, own1, hole0, p, level);
    panic := mem.Kfree(p);
    WalkDone(m0, m1, mem.m, own0, own1, mem.own, p);
  }

  lemma IsAPage(m: Mem, own: Owners, hole: Holes, p: nat)
    requires TreesOk(m, own, hole) && p in own
    ensures p in m && |m[p]| == ENTRIES
  {
    assert PageOk(m, own, hole, p);
  }

  // Every entry that the loop meets is empty or points to a table page one level down.
  lemma WalkEntry(m: Mem, m': Mem, own: Owners, own': Owners, hole: Holes, p: nat, n: nat, level: nat)
    requires TreesOk(m, own, hole) && Walking(m, m', own, own', p, n) && TreesOk(m', own', hole) && n < ENTRIES
             && level <= 2 && IsTable(own, p, level)
    requires NoLeaves(m, own, p) && HolesAbove(own, hole, level)
    ensures p in m' && |m'[p]| == ENTRIES && p in own' && own'[p] == own[p] && IsTable(own', p, level)
            && (p, n) !in hole
    ensures m'[p][n] == 0 || (level > 0 && PageOf(m'[p][n]) in own'
                              && own'[PageOf(m'[p][n])] == Table(p, n, level - 1)
                                 && m'[p][n] == Entry(PageOf(m'[p][n]), PTE_V))
  {
    NotUnderItself(m, own, hole, p, n);
    assert PageOk(m', own', hole, p);
    assert (p, n) !in hole;
    assert EntryOk(m', own', p, level, n);
    if level == 0 { assert At(m, p, n) == 0; }
  }

  lemma NotUnderItself(m: Mem, own: Owners, hole: Holes, p: nat, n: nat)
    requires TreesOk(m, own, hole) && p in own
    ensures !Under(own, p, p, n)
  {
    assert PageOk(m, own, hole, p);
    if own[p].Table? { assert PageOk(m, own, hole, own[p].parent); }
  }

  // What is below p is at a lower level.
  lemma UnderIsLower(m: Mem, own: Owners, hole: Holes, p: nat, q: nat, n: nat, level: nat)
    requires TreesOk(m, own, hole) && level <= 2 && IsTable(own, p, level) && Under(own, p, q, n)
    ensures own[q].level < level
  {
    assert PageOk(m, own, hole, q) && PageOk(m, own, hole, own[q].parent);
  }

  // The tree at the child is as it was when the loop began.
  lemma BelowChild(m: Mem, m1: Mem, own: Owners, own1: Owners, hole: Holes, p: nat, n: nat, c: nat, level: nat)
    requires TreesOk(m, own, hole) && Walking(m, m1, own, own1, p, n) && TreesOk(m1, own1, hole) && 0 < level <= 2
             && IsTable(own, p, level) && own1[p] == own[p] && n < ENTRIES
    requires c in own1 && own1[c] == Table(p, n, level - 1) && m1[p][n] == Entry(c, PTE_V) && NoLeaves(m, own, p)
             && HolesAbove(own, hole, level)
    ensures IsTable(own1, c, level - 1) && HolesAbove(own1, hole + {(p, n)}, level - 1) && NoLeaves(m1, own1, c)
  {
    hide TreesOk;
    forall h | h in hole ensures h.0 in own1 && own1[h.0] == own[h.0] {
      if Under(own, p, h.0, n) { UnderIsLower(m, own, hole, p, h.0, n, level); }
    }
    forall q, i | q in own1 && IsTable(own1, q, 0) && (q == c || Under(own1, c, q, ENTRIES)) && 0 <= i < ENTRIES
      ensures At(m1, q, i) == 0 {
      UnderChild(m1, own, own1, hole, p, n, c, level, q);
      assert Under(own, p, q, n + 1) && own1[q] == own[q] && !Under(own, p, q, n);
      WiderUnder(own, p, q, n + 1);
      NotUnderItself(m, own, hole, p, ENTRIES);
      assert At(m, q, i) == 0;
    }
  }

  lemma WiderUnder(own: Owners, p: nat, q: nat, n: nat)
    requires Under(own, p, q, n) && n <= ENTRIES
    ensures Under(own, p, q, ENTRIES)
  {
  }

  lemma WalkEnd(m: Mem, m1: Mem, own: Owners, own1: Owners, hole: Holes, p: nat, level: nat)
    requires TreesOk(m, own, hole) && Walking(m, m1, own, own1, p, ENTRIES) && TreesOk(m1, own1, hole) && level <= 2
             && IsTable(own, p, level)
    ensures p in own1 && own1[p] == own[p] && own1[p] != Free && Childless(own1, p)
  {
    hide TreesOk;
    NotUnderItself(m, own, hole, p, ENTRIES);
    AllEmpty(m1, own1, hole, p);
  }

  lemma WalkDone(m: Mem, m1: Mem, m2: Mem, own: Owners, own1: Owners, own2: Owners, p: nat)
    requires Walking(m, m1, own, own1, p, ENTRIES) && p in own && own2 == own1[p := Free] && p in m1 && p in m2
             && m2 == m1[p := m2[p]]
    ensures FreedTree(own, own2, p) && OnlyTree(m, m2, own, p)
  {
  }

  // ---------------------------------------------------------------- what belongs to a page table

  // The virtual page that entry i of the lowest-level table page t is for.
  function VpnOf(own: Owners, t: nat, i: nat): nat {
    if t in own && own[t].Table? && own[t].parent in own
    && own[own[t].parent].Table? then own[own[t].parent].idx * 262144 + own[t].idx * 512 + i else 0
  }

  lemma Digits(a: nat, b: nat, c: nat)
    requires a < 256 && b < 512 && c < 512
    ensures var v := a * 262144 + b * 512 + c; v < MAXVPN && PX(2, v) == a && PX(1, v) == b && PX(0, v) == c
  {
    var v := a * 262144 + b * 512 + c;
    assert v == 512 * (a * 512 + b) + c;
    assert v / 512 == a * 512 + b && v % 512 == c;
    assert v / 262144 == a by { assert v == 262144 * a + (b * 512 + c) && b * 512 + c < 262144; }
  }

  // A lowest-level table page of r is on the way to the pages it maps.
  lemma TableSpot(m: Mem, own: Owners, r: nat, t: nat, i: nat)
    requires TreesOk(m, own, {}) && IsRoot(own, r) && IsTable(own, t, 0) && RootOf(own, t) == r && i < ENTRIES
    ensures var v := VpnOf(own, t, i); v < MAXVPN && T0(m, r, v) == t && PX(0, v) == i && Pte(m, r, v) == At(m, t, i)
  {
    assert PageOk(m, own, {}, t);
    var t1 := own[t].parent;
    assert PageOk(m, own, {}, t1) && PageOk(m, own, {}, r);
    assert EntryOk(m, own, r, 2, own[t1].idx);
    Digits(own[t1].idx, own[t].idx, i);
  }

  // A user page of r is mapped by r.
  lemma UserSpot(m: Mem, own: Owners, r: nat, p: nat)
    requires TreesOk(m, own, {}) && IsRoot(own, r) && p in own && own[p].User? && RootOf(own, p) == r
    ensures var v := VpnOf(own, own[p].parent, own[p].idx);
            v < MAXVPN && Valid(Pte(m, r, v)) && PageOf(Pte(m, r, v)) == p
  {
    assert PageOk(m, own, {}, p);
    var t := own[p].parent;
    assert PageOk(m, own, {}, t);
    TableSpot(m, own, r, t, own[p].idx);
  }

  // Nothing is mapped: no leaf is left, and no user page.
  lemma NothingMapped(m: Mem, own: Owners, r: nat)
    requires TreesOk(m, own, {}) && IsRoot(own, r) && forall v: nat :: v < MAXVPN ==> Pte(m, r, v) == 0
    ensures NoLeaves(m, own, r) && forall p :: p in own && own[p].User? ==> RootOf(own, p) != r
  {
    hide TreesOk, Pte;
    forall q, i | q in own && IsTable(own, q, 0) && (q == r || Under(own, r, q, ENTRIES)) && 0 <= i < ENTRIES
      ensures At(m, q, i) == 0 {
      UnderRoot(m, own, r, q);
      TableSpot(m, own, r, q, i);
    }
    forall p | p in own && own[p].User? ensures RootOf(own, p) != r {
      if RootOf(own, p) == r { UserSpot(m, own, r, p); }
    }
  }

  // The table pages under a root are those that belong to it.
  lemma UnderRoot(m: Mem, own: Owners, r: nat, q: nat)
    requires TreesOk(m, own, {}) && IsRoot(own, r) && q in own
    ensures own[q].Table? ==> (Under(own, r, q, ENTRIES) <==> RootOf(own, q) == r)
  {
    assert PageOk(m, own, {}, q);
    if own[q].Table? {
      assert PageOk(m, own, {}, own[q].parent);
    }
  }

  // All pages of the page table at r are free, and no other page changed hands.
  ghost predicate FreedAll(own: Owners, own': Owners, r: nat) {
    own'.Keys == own.Keys && forall p :: p in own ==> own'[p] == if RootOf(own, p) == r then Free else own[p]
  }

  // Freeing an address space gives back exactly the pages that building it took.
  lemma AllReturned(own: Owners, own1: Owners, own2: Owners, r: nat)
    requires own1.Keys == own.Keys && r != 0 && FreedAll(own1, own2, r)
    requires forall p :: p in own && own[p] != Free ==> own1[p] == own[p] && RootOf(own1, p) != r
    requires forall p :: p in own && own[p] == Free && own1[p] != Free ==> RootOf(own1, p) == r
    ensures own2 == own
  {
    forall p | p in own ensures own2[p] == own[p] {
      if own[p] == Free && own1[p] == Free { assert RootOf(own1, p) == 0; }
    }
  }

  // The length of the free list is the number of free pages.
  ghost function FreePages(own: Owners): (s: set<nat>)
    ensures forall p :: p in s <==> p in own && own[p] == Free
  {
    set p | p in own && own[p] == Free
  }

  lemma FreeCount(m: Mem, own: Owners, head: nat, free: seq<nat>)
    requires Chain(m, own, head, free)
    ensures |free| == |FreePages(own)|
  {
    forall k | 0 <= k < |free| ensures free[k] in FreePages(own) { assert LinkOk(m, own, free, k); }
    assert FreePages(own) == Members(free);
    CountDistinct(free);
  }

  ghost function Members(s: seq<nat>): (r: set<nat>)
    ensures forall p :: p in r <==> p in s
  {
    set p | p in s
  }

  lemma {:induction false} CountDistinct(s: seq<nat>)
    requires forall j, k :: 0 <= j < k < |s| ==> s[j] != s[k]
    ensures |Members(s)| == |s|
  {
    if s != [] {
      var n := |s| - 1;
      CountDistinct(s[..n]);
      assert s == s[..n] + [s[n]];
      assert Members(s) == Members(s[..n]) + {s[n]} && s[n] !in s[..n];
    }
  }

  // ---------------------------------------------------------------- uvmfree

  // Translations of other page tables, and pages of data that were not freed, are untouched.
  ghost predicate OthersKept(m: Mem, m': Mem, own: Owners, own': Owners, r: nat) {
    && own'.Keys == own.Keys && m'.Keys == m.Keys
    && (forall r', v :: IsRoot(own, r') && r' != r && 0 <= v < MAXVPN ==> Pte(m', r', v) == Pte(m, r', v))
    && (forall p :: p in own && p in m && IsData(own[p]) && own'[p] == own[p] ==> m'[p] == m[p])
  }

  // The user pages of r, of which none is left at the two special addresses.
  lemma UserInRange(m: Mem, own: Owners, r: nat, n: nat, p: nat)
    requires TreesOk(m, own, {}) && UserOk(m, own, r, n) && Pte(m, r, TRAPFRAME) == 0 && Pte(m, r, TRAMPOLINE) == 0
             && p in own && own[p].User?
    ensures RootOf(own, p) == r <==> InRange(m, r, 0, n, p)
  {
    hide TreesOk, Pte;
    if RootOf(own, p) == r {
      UserSpot(m, own, r, p);
      var v := VpnOf(own, own[p].parent, own[p].idx);
      assert v < n;
    }
    if InRange(m, r, 0, n, p) {
      var v: nat :| 0 <= v < n && Valid(Pte(m, r, v)) && PageOf(Pte(m, r, v)) == p;
      assert Owned(m, own, r, v);
      SpotRoot(m, own, r, v);
    }
  }

  lemma SpotRoot(m: Mem, own: Owners, r: nat, v: nat)
    requires TreesOk(m, own, {}) && IsRoot(own, r) && Owned(m, own, r, v)
    ensures RootOf(own, PageOf(Pte(m, r, v))) == r && T0(m, r, v) != 0
  {
    hide TreesOk;
    OnPath(m, own, r, v);
  }

  // uvmfree, once the trampoline and the trap frame are unmapped.
  method Uvmfree(mem: Memory, r: nat, sz: nat) returns (panic: bool)
    requires mem.Ok() && mem.hole == {} && UserOk(mem.m, mem.own, r, Pages(sz)) && Pte(mem.m, r, TRAPFRAME) == 0
             && Pte(mem.m, r, TRAMPOLINE) == 0
    modifies mem
    ensures mem.Ok() && mem.hole == {} && !panic && FreedAll(old(mem.own), mem.own, r)
            && OthersKept(old(mem.m), mem.m, old(mem.own), mem.own, r)
  {
    hide Chain, TreesOk, Pte, T0, T1, Cleared, Freed, Owned, DataKept, FreedAll, OthersKept, FreedTree, OnlyTree,
        NoLeaves, HolesAbove;
    panic := false;
    ghost var m0, own0 := mem.m, mem.own;
    ClearedNone(m0, own0, r, 0);
    FreedNone(m0, own0, r, 0);
    DataStays(m0, own0);
    if sz > 0 { panic := UnmapFree(mem, r, 0, Pages(sz)); }
    ghost var m1, own1 := mem.m, mem.own;
    AllCleared(m0, m1, own0, r, Pages(sz));
    NothingMapped(m1, own1, r);
    NoHoles(own1);
    panic := FreeWalk(mem, r, 2);
    AllFreed(m0, m1, own0, own1, mem.own, r, Pages(sz));
    RestKept(m0, m1, mem.m, own0, own1, mem.own, r, Pages(sz));
  }

  lemma DataStays(m: Mem, own: Owners)
    ensures DataKept(m, m, own, own)
  {
  }

  lemma NoHoles(own: Owners)
    ensures HolesAbove(own, {}, 2)
  {
  }

  lemma AllCleared(m: Mem, m': Mem, own: Owners, r: nat, n: nat)
    requires UserOk(m, own, r, n) && Pte(m, r, TRAPFRAME) == 0 && Pte(m, r, TRAMPOLINE) == 0
             && Cleared(m, m', own, r, 0, n)
    ensures forall v: nat :: v < MAXVPN ==> Pte(m', r, v) == 0
  {
    hide Pte, Owned;
  }

  lemma AllFreed(m: Mem, m1: Mem, own: Owners, own1: Owners, own2: Owners, r: nat, n: nat)
    requires TreesOk(m, own, {}) && TreesOk(m1, own1, {}) && UserOk(m, own, r, n) && Pte(m, r, TRAPFRAME) == 0
             && Pte(m, r, TRAMPOLINE) == 0
    requires Freed(m, own, own1, r, 0, n) && FreedTree(own1, own2, r) && IsRoot(own1, r)
    ensures FreedAll(own, own2, r)
  {
    hide TreesOk, Pte, Owned, InRange;
    RootsStay(m, own, own1, r, 0, n, n);
    forall p | p in own ensures own2[p] == if RootOf(own, p) == r then Free else own[p] {
      UnderRoot(m1, own1, r, p);
      if own[p].User? { UserInRange(m, own, r, n, p); }
      else if own[p].Table? { SameRoot(m, own, own1, p); }
      else { NotInRange(m, own, r, n, p); }
    }
  }

  lemma SameRoot(m: Mem, own: Owners, own1: Owners, p: nat)
    requires TreesOk(m, own, {}) && own1.Keys == own.Keys && p in own && own[p].Table?
             && forall q :: q in own && (own[q].Table? || own[q].Root?) ==> own1[q] == own[q]
    ensures own1[p] == own[p] && RootOf(own1, p) == RootOf(own, p)
  {
    assert PageOk(m, own, {}, p);
  }

  lemma NotInRange(m: Mem, own: Owners, r: nat, n: nat, p: nat)
    requires UserOk(m, own, r, n) && p in own && !own[p].User?
    ensures !InRange(m, r, 0, n, p)
  {
    hide Pte;
    forall v: nat | v < n ensures !(Valid(Pte(m, r, v)) && PageOf(Pte(m, r, v)) == p) { OwnedIs(m, own, r, v); }
  }

  lemma RestKept(m: Mem, m1: Mem, m2: Mem, own: Owners, own1: Owners, own2: Owners, r: nat, n: nat)
    requires TreesOk(m, own, {}) && TreesOk(m1, own1, {}) && UserOk(m, own, r, n) && Cleared(m, m1, own, r, 0, n)
             && Freed(m, own, own1, r, 0, n)
    requires DataKept(m, m1, own, own1) && FreedTree(own1, own2, r) && OnlyTree(m1, m2, own1, r) && IsRoot(own1, r)
    ensures OthersKept(m, m2, own, own2, r)
  {
    hide TreesOk, Pte, Owned, InRange;
    RootsStay(m, own, own1, r, 0, n, n);
    forall r', v | IsRoot(own, r') && r' != r && 0 <= v < MAXVPN ensures Pte(m2, r', v) == Pte(m, r', v) {
      assert IsRoot(own1, r') && Pte(m1, r', v) == Pte(m, r', v);
      OtherTree(m1, m2, own1, r, r', v);
    }
  }

  // Freeing one tree does not touch another.
  lemma OtherTree(m: Mem, m': Mem, own: Owners, r: nat, r': nat, v: nat)
    requires TreesOk(m, own, {}) && IsRoot(own, r) && IsRoot(own, r') && r' != r && OnlyTree(m, m', own, r)
    ensures Pte(m', r', v) == Pte(m, r', v)
  {
    hide TreesOk;
    OnPath(m, own, r', v);
    IsAPage(m, own, {}, r');
    var t1, t0 := T1(m, r', v), T0(m, r', v);
    if t1 != 0 { IsAPage(m, own, {}, t1); }
  }
}
