/** Page tables of kernel/vm.c: a three-level tree of table pages stands for one flat map from
    virtual page numbers to entries. */
module VmTables {
  import opened VmPages

  // One beyond the highest virtual page: MAXVA / PGSIZE.
  const MAXVPN: nat := 0x400_0000

  // The index of virtual page v at each level (PX).
  function PX(level: nat, v: nat): (i: nat)
    ensures i < ENTRIES
  {
    (if level == 0 then v else if level == 1 then v / 512 else v / 262144) % 512
  }

  lemma SamePage(v: nat, v': nat)
    requires v < MAXVPN && v' < MAXVPN && PX(0, v) == PX(0, v') && PX(1, v) == PX(1, v') && PX(2, v) == PX(2, v')
    ensures v == v'
  {
    assert v == v / 512 * 512 + v % 512 && v' == v' / 512 * 512 + v' % 512;
    assert v / 512 == v / 262144 * 512 + v / 512 % 512 && v' / 512 == v' / 262144 * 512 + v' / 512 % 512;
  }

  // The table page that entry i of p points to, or 0.
  function Child(m: Mem, p: nat, i: nat): (q: nat) {
    if p in m && i < |m[p]| && Valid(m[p][i]) then PageOf(m[p][i]) else 0
  }

  // The table pages on the way to virtual page v; 0 where the way ends.
  function T1(m: Mem, r: nat, v: nat): (q: nat) { Child(m, r, PX(2, v)) }

  function T0(m: Mem, r: nat, v: nat): (q: nat) { if T1(m, r, v) == 0 then 0 else Child(m, T1(m, r, v), PX(1, v)) }

  function At(m: Mem, t: nat, i: nat): nat { if t in m && i < |m[t]| then m[t][i] else 0 }

  // The entry of virtual page v, 0 if there is none.
  function Pte(m: Mem, r: nat, v: nat): (e: nat) { if T0(m, r, v) == 0 then 0 else At(m, T0(m, r, v), PX(0, v)) }

  predicate IsRoot(own: Owners, r: nat) { r in own && own[r] == Root && 0 !in own }

  // The table pages on the way to v are owned by that way, so no other way leads through them.
  lemma OnPath(m: Mem, own: Owners, r: nat, v: nat)
    requires TreesOk(m, own, {}) && IsRoot(own, r)
    ensures var t1, t0 := T1(m, r, v), T0(m, r, v);
            && (t1 != 0 ==> t1 in own && own[t1] == Table(r, PX(2, v), 1))
            && (t0 != 0 ==> t1 != 0 && t0 in own && own[t0] == Table(t1, PX(1, v), 0) && t0 in m && |m[t0]| == ENTRIES)
  {
    assert PageOk(m, own, {}, r);
    assert EntryOk(m, own, r, 2, PX(2, v));
    var t1 := T1(m, r, v);
    if t1 != 0 {
      assert PageOk(m, own, {}, t1);
      assert EntryOk(m, own, t1, 1, PX(1, v));
      var t0 := T0(m, r, v);
      if t0 != 0 { assert PageOk(m, own, {}, t0); }
    }
  }

  // Two ways that end in the same table page are one way.
  lemma OnePath(m: Mem, own: Owners, r: nat, v: nat, r': nat, v': nat)
    requires TreesOk(m, own, {}) && IsRoot(own, r) && IsRoot(own, r') && v < MAXVPN && v' < MAXVPN
    requires T0(m, r, v) != 0 && T0(m, r, v) == T0(m, r', v') && PX(0, v) == PX(0, v')
    ensures r == r' && v == v'
  {
    hide TreesOk, T0, T1;
    OnPath(m, own, r, v);
    OnPath(m, own, r', v');
    SamePage(v, v');
  }

  // ---------------------------------------------------------------- writing one mapping

  // All translations of all page tables are the same.
  ghost predicate SameMaps(m: Mem, m': Mem, own: Owners) {
    forall r, v :: IsRoot(own, r) && 0 <= v < MAXVPN ==> Pte(m', r, v) == Pte(m, r, v)
  }

  // Only the translation of page v by table r changed: it is now e.
  ghost predicate OneMap(m: Mem, m': Mem, own: Owners, r: nat, v: nat, e: nat) {
    forall r', v' :: IsRoot(own, r') && 0 <= v' < MAXVPN ==>
                       Pte(m', r', v') == if r' == r && v' == v then e else Pte(m, r', v')
  }

  predicate MapEntry(e: nat) { e == 0 || (Valid(e) && Leafy(e)) }

  // Nobody's page hangs from entry i of t, except through e.
  ghost predicate Released(own: Owners, t: nat, i: nat, e: nat) {
    forall q :: q in own && own[q] == User(t, i) ==> Valid(e) && Leafy(e) && PageOf(e) == q
  }

  lemma LeafOk(m: Mem, own: Owners, t: nat, i: nat, e: nat)
    requires TreesOk(m, own, {}) && IsTable(own, t, 0) && t in m && i < |m[t]| && MapEntry(e) && Released(own, t, i, e)
    ensures TreesOk(m[t := SetWord(m[t], i, e)], own, {})
  {
    var m' := m[t := SetWord(m[t], i, e)];
    forall p | p in own ensures PageOk(m', own, {}, p) {
      assert PageOk(m, own, {}, p);
      if own[p].Root? || own[p].Table? {
        forall j: nat | j < ENTRIES ensures EntryOk(m', own, p, Level(own[p]), j) {
          assert EntryOk(m, own, p, Level(own[p]), j);
        }
      }
    }
  }

  lemma LeafWritten(m: Mem, own: Owners, r: nat, v: nat, e: nat)
    requires TreesOk(m, own, {}) && IsRoot(own, r) && v < MAXVPN && T0(m, r, v) != 0 && MapEntry(e)
             && Released(own, T0(m, r, v), PX(0, v), e)
    ensures var t := T0(m, r, v);
            && t in own && IsTable(own, t, 0) && t in m && |m[t]| == ENTRIES
            && var m' := m[t := SetWord(m[t], PX(0, v), e)];
            && TreesOk(m', own, {}) && OneMap(m, m', own, r, v, e)
  {
    hide TreesOk, Released;
    OnPath(m, own, r, v);
    var t := T0(m, r, v);
    LeafOk(m, own, t, PX(0, v), e);
    var m' := m[t := SetWord(m[t], PX(0, v), e)];
    forall r', v' | IsRoot(own, r') && 0 <= v' < MAXVPN
      ensures Pte(m', r', v') == if r' == r && v' == v then e else Pte(m, r', v') {
      OnPath(m, own, r', v');
      if T0(m, r', v') == t && PX(0, v') == PX(0, v) { OnePath(m, own, r, v, r', v'); }
      SameWay(m, m', own, t, r', v');
    }
  }

  // A change in a lowest-level table leaves all ways alone.
  lemma SameWay(m: Mem, m': Mem, own: Owners, t: nat, r: nat, v: nat)
    requires TreesOk(m, own, {}) && IsRoot(own, r) && IsTable(own, t, 0) && t in m && m'.Keys == m.Keys
             && forall p :: p in m && p != t ==> m'[p] == m[p]
    ensures T1(m', r, v) == T1(m, r, v) && T0(m', r, v) == T0(m, r, v)
  {
    hide TreesOk;
    OnPath(m, own, r, v);
  }

  // ---------------------------------------------------------------- adding a table page

  lemma TableOk(m: Mem, own: Owners, p: nat, i: nat, level: nat, q: nat)
    requires TreesOk(m, own, {}) && 0 < level <= 2 && IsTable(own, p, level) && p in m && i < |m[p]| && m[p][i] == 0
             && (level == 2 ==> i < ENTRIES / 2)
    requires q in own && own[q] == Used && q in m && m[q] == ZeroPage()
    ensures TreesOk(m[p := SetWord(m[p], i, Entry(q, PTE_V))], own[q := Table(p, i, level - 1)], {})
  {
    var m', own' := m[p := SetWord(m[p], i, Entry(q, PTE_V))], own[q := Table(p, i, level - 1)];
    forall x | x in own' ensures PageOk(m', own', {}, x) {
      assert PageOk(m, own, {}, x);
      if own'[x].Root? || own'[x].Table? {
        forall j: nat | j < ENTRIES ensures EntryOk(m', own', x, Level(own'[x]), j) {
          if x != q { assert EntryOk(m, own, x, Level(own[x]), j); }
        }
      }
    }
  }

  lemma TableLinked(m: Mem, own: Owners, p: nat, i: nat, level: nat, q: nat)
    requires TreesOk(m, own, {}) && 0 < level <= 2 && IsTable(own, p, level) && p in m && i < |m[p]| && m[p][i] == 0
             && (level == 2 ==> i < ENTRIES / 2)
    requires q in own && own[q] == Used && q in m && m[q] == ZeroPage() && 0 !in own
    ensures var m', own' := m[p := SetWord(m[p], i, Entry(q, PTE_V))], own[q := Table(p, i, level - 1)];
            TreesOk(m', own', {}) && SameMaps(m, m', own)
  {
    hide TreesOk;
    TableOk(m, own, p, i, level, q);
    var m' := m[p := SetWord(m[p], i, Entry(q, PTE_V))];
    forall r, v | IsRoot(own, r) && 0 <= v < MAXVPN ensures Pte(m', r, v) == Pte(m, r, v) {
      OnPath(m, own, r, v);
      NewTable(m, m', own, p, i, level, q, r, v);
    }
  }

  lemma NewTable(m: Mem, m': Mem, own: Owners, p: nat, i: nat, level: nat, q: nat, r: nat, v: nat)
    requires IsRoot(own, r) && v < MAXVPN && 0 < level <= 2 && IsTable(own, p, level) && p in m && i < |m[p]|
             && m[p][i] == 0
    requires q in own && own[q] == Used && q in m && m[q] == ZeroPage()
             && m' == m[p := SetWord(m[p], i, Entry(q, PTE_V))]
    requires T1(m, r, v) != 0 ==> T1(m, r, v) in own && own[T1(m, r, v)].Table? && own[T1(m, r, v)].level == 1
    requires T0(m, r, v) != 0 ==> T0(m, r, v) in own && own[T0(m, r, v)].Table? && own[T0(m, r, v)].level == 0
    ensures Pte(m', r, v) == Pte(m, r, v)
  {
    if level == 2 && r == p && PX(2, v) == i {
      assert T1(m', r, v) == q;
    }
  }

  // ---------------------------------------------------------------- growth of a tree

  function Par(own: Owners, p: nat): nat { if p in own && own[p].Table? then own[p].parent else 0 }

  // The root of the page table that page p belongs to, 0 if to none.
  function RootOf(own: Owners, p: nat): (r: nat) {
    if p !in own then 0 else
    match own[p]
    case Root => p
    case Table(q, _, level) => if level == 1 then q else Par(own, q)
    case User(q, _) => Par(own, Par(own, q))
    case _ => 0
  }

  predicate IsData(o: Owner) { o.Used? || o.User? }

  // The tree at r took free pages for table pages; nothing else changed hands, and pages that
  // hold data were not touched.
  ghost predicate Grew(m: Mem, m': Mem, own: Owners, own': Owners, r: nat) {
    && own'.Keys == own.Keys && m'.Keys == m.Keys
    && (forall p :: p in own && own[p] != Free ==> own'[p] == own[p])
    && (forall p :: p in own && own[p] == Free && own'[p] != Free ==> own'[p].Table? && RootOf(own', p) == r)
    && (forall p :: p in own && IsData(own[p]) && p in m ==> m'[p] == m[p])
  }

  lemma GrewTwice(m: Mem, m1: Mem, m2: Mem, own: Owners, own1: Owners, own2: Owners, r: nat)
    requires Grew(m, m1, own, own1, r) && Grew(m1, m2, own1, own2, r) && 0 !in own
    requires forall p :: p in own1 && own1[p].Table? ==> own1[p].parent in own1 && own1[own1[p].parent] != Free
    ensures Grew(m, m2, own, own2, r)
  {
    forall p | p in own && own[p] == Free && own2[p] != Free ensures own2[p].Table? && RootOf(own2, p) == r {
      if own1[p] != Free {
        assert own2[p] == own1[p] && RootOf(own1, p) == r;
      }
    }
  }

  lemma ParentsInUse(m: Mem, own: Owners, hole: Holes)
    requires TreesOk(m, own, hole)
    ensures forall p :: p in own && own[p].Table? ==> own[p].parent in own && own[own[p].parent] != Free
  {
    forall p | p in own && own[p].Table? ensures own[p].parent in own && own[own[p].parent] != Free {
      assert PageOk(m, own, hole, p);
    }
  }

  lemma SameMapsTwice(m: Mem, m1: Mem, m2: Mem, own: Owners, own1: Owners)
    requires SameMaps(m, m1, own) && SameMaps(m1, m2, own1) && own1.Keys == own.Keys
             && forall p :: p in own && own[p] == Root ==> own1[p] == Root
    ensures SameMaps(m, m2, own)
  {
    forall r, v | IsRoot(own, r) && 0 <= v < MAXVPN ensures Pte(m2, r, v) == Pte(m, r, v) {
      assert IsRoot(own1, r);
      assert Pte(m1, r, v) == Pte(m, r, v);
    }
  }

  // The table page on the way to v at a level.
  function Tab(m: Mem, r: nat, v: nat, level: nat): nat {
    if level == 2 then r else if level == 1 then T1(m, r, v) else T0(m, r, v)
  }

  // The table pages that are missing on the way to v.
  function Missing(m: Mem, r: nat, v: nat): (n: nat)
    ensures n == 0 <==> T0(m, r, v) != 0
  {
    if T1(m, r, v) == 0 then 2 else if T0(m, r, v) == 0 then 1 else 0
  }

  // A new empty table page makes one fewer.
  lemma OneFewer(m: Mem, own: Owners, r: nat, v: nat, level: nat, p: nat, q: nat)
    requires TreesOk(m, own, {}) && IsRoot(own, r) && 0 < level <= 2 && p == Tab(m, r, v, level) != 0 && p in m
             && |m[p]| == ENTRIES
    requires Tab(m, r, v, level - 1) == 0 && q != 0 && q != p && q in own && own[q] == Free
    ensures var m1 := m[q := ZeroPage()]; Missing(m1[p := SetWord(m1[p], PX(level, v), Entry(q, PTE_V))], r,
                                                  v) + 1 == Missing(m, r, v)
  {
    OnPath(m, own, r, v);
    hide TreesOk;
    var m1 := m[q := ZeroPage()];
    var m2 := m1[p := SetWord(m1[p], PX(level, v), Entry(q, PTE_V))];
    if level == 2 {
      assert T1(m2, r, v) == q && Child(m2, q, PX(1, v)) == 0;
    } else {
      assert m2[r] == m[r] && T1(m2, r, v) == p && T0(m2, r, v) == q;
    }
  }

  // ---------------------------------------------------------------- walk

  // The entry of v at this level leads down, or a new table page is put there.
  method Descend(mem: Memory, r: nat, v: nat, level: nat, p: nat, alloc: bool) returns (q: nat)
    requires mem.Ok() && mem.hole == {} && IsRoot(mem.own, r) && v < MAXVPN && 0 < level <= 2
             && p == Tab(mem.m, r, v, level) != 0
    modifies mem
    ensures mem.Ok() && mem.hole == {} && SameMaps(old(mem.m), mem.m, old(mem.own))
            && Grew(old(mem.m), mem.m, old(mem.own), mem.own, r)
    ensures q == Tab(mem.m, r, v, level - 1)
    ensures !alloc || q == 0 ==> mem.m == old(mem.m) && mem.own == old(mem.own) && mem.free == old(mem.free)
    ensures q == 0 && alloc ==> mem.free == []
    ensures |mem.free| + Missing(old(mem.m), r, v) == |old(mem.free)| + Missing(mem.m, r, v)
  {
    hide Chain, TreesOk, Tab, T1, T0, Grew, SameMaps, Missing;
    ghost var m0, own0 := mem.m, mem.own;
    Nothing(m0, own0, r);
    TabOwned(mem.m, mem.own, r, v, level);
    var e := mem.m[p][PX(level, v)];
    if Valid(e) { return PageOf(e); }
    if !alloc { return 0; }
    q := mem.Kalloc();
    if q == 0 { return 0; }
    OneFewer(m0, own0, r, v, level, p, q);
    NewPage(m0, own0, r, v, level, p, q);
    NewPageChain(mem.m, mem.own, mem.head, mem.free, p, PX(level, v), level, q);
    mem.m := mem.m[q := ZeroPage()];
    mem.m := mem.m[p := SetWord(mem.m[p], PX(level, v), Entry(q, PTE_V))];
    mem.own := mem.own[q := Table(p, PX(level, v), level - 1)];
  }

  lemma TabOwned(m: Mem, own: Owners, r: nat, v: nat, level: nat)
    requires TreesOk(m, own, {}) && IsRoot(own, r) && v < MAXVPN && 0 < level <= 2 && Tab(m, r, v, level) != 0
    ensures var p := Tab(m, r, v, level);
            && IsTable(own, p, level) && p in m && |m[p]| == ENTRIES
            && Tab(m, r, v, level - 1) == Child(m, p, PX(level, v))
            && (if Valid(m[p][PX(level, v)]) then PageOf(m[p][PX(level, v)]) != 0 else m[p][PX(level, v)] == 0)
  {
    OnPath(m, own, r, v);
    var p := Tab(m, r, v, level);
    assert PageOk(m, own, {}, p);
    assert EntryOk(m, own, p, level, PX(level, v));
  }

  lemma LowHalf(v: nat)
    requires v < MAXVPN
    ensures PX(2, v) < ENTRIES / 2
  {
  }

  lemma NewPage(m: Mem, own: Owners, r: nat, v: nat, level: nat, p: nat, q: nat)
    requires TreesOk(m, own, {}) && IsRoot(own, r) && v < MAXVPN && 0 < level <= 2 && p == Tab(m, r, v, level) != 0
    requires q in own && own[q] == Free && q in m && !Valid(At(m, p, PX(level, v)))
    ensures p in m && |m[p]| == ENTRIES && p != q
    ensures var i := PX(level, v);
            var m' := m[q := ZeroPage()][p := SetWord(m[p], i, Entry(q, PTE_V))];
            var own' := own[q := Used][q := Table(p, i, level - 1)];
            && TreesOk(m', own', {}) && SameMaps(m, m', own) && Grew(m, m', own, own', r)
            && q == Tab(m', r, v, level - 1)
  {
    hide TreesOk;
    TabOwned(m, own, r, v, level);
    OnPath(m, own, r, v);
    var i := PX(level, v);
    var m1, own1 := m[q := ZeroPage()], own[q := Used];
    ZeroedOk(m, own, q);
    LowHalf(v);
    TableLinked(m1, own1, p, i, level, q);
    var m', own' := m1[p := SetWord(m1[p], i, Entry(q, PTE_V))], own1[q := Table(p, i, level - 1)];
    SameMapsTwice(m, m1, m', own, own1);
    assert RootOf(own', q) == r;
    assert Tab(m', r, v, level - 1) == q;
  }

  lemma NewPageChain(m: Mem, own: Owners, head: nat, free: seq<nat>, p: nat, i: nat, level: nat, q: nat)
    requires Chain(m, own, head, free) && q in own && own[q] == Used && q in m && p in own && own[p] != Free && p in m
             && i < |m[p]| && 0 < level
    ensures Chain(m[q := ZeroPage()][p := SetWord(m[p], i, Entry(q, PTE_V))], own[q := Table(p, i, level - 1)], head,
                  free)
  {
    hide Chain;
    ChainKept(m, m[q := ZeroPage()][p := SetWord(m[p], i, Entry(q, PTE_V))], own, own[q := Table(p, i, level - 1)],
              head, free);
  }

  lemma Nothing(m: Mem, own: Owners, r: nat)
    ensures SameMaps(m, m, own) && Grew(m, m, own, own, r)
  {
  }

  // A page that no tree uses can be overwritten.
  lemma ZeroedOk(m: Mem, own: Owners, q: nat)
    requires TreesOk(m, own, {}) && q in own && own[q] == Free && q in m && 0 !in own
    ensures TreesOk(m[q := ZeroPage()], own[q := Used], {}) && SameMaps(m, m[q := ZeroPage()], own)
  {
    var m', own' := m[q := ZeroPage()], own[q := Used];
    TakenOk(m, own, {}, q);
    forall x | x in own' ensures PageOk(m', own', {}, x) {
      assert PageOk(m, own', {}, x);
      if own'[x].Root? || own'[x].Table? {
        forall j: nat | j < ENTRIES ensures EntryOk(m', own', x, Level(own'[x]), j) {
          assert EntryOk(m, own', x, Level(own'[x]), j);
        }
      }
    }
    forall r, v | IsRoot(own, r) && 0 <= v < MAXVPN ensures Pte(m', r, v) == Pte(m, r, v) { OnPath(m, own, r, v); }
  }

  // walk: the lowest-level table page of va, 0 if there is none (or, with alloc, no memory).
  method Walk(mem: Memory, r: nat, va: nat, alloc: bool) returns (panic: bool, t: nat)
    requires mem.Ok() && mem.hole == {} && IsRoot(mem.own, r)
    modifies mem
    ensures mem.Ok() && mem.hole == {} && (panic <==> va >= MAXVPN * PGSIZE)
    ensures SameMaps(old(mem.m), mem.m, old(mem.own)) && Grew(old(mem.m), mem.m, old(mem.own), mem.own, r)
    ensures !alloc || panic ==> mem.m == old(mem.m) && mem.own == old(mem.own) && mem.free == old(mem.free)
    ensures !panic ==> va / PGSIZE < MAXVPN && t == T0(mem.m, r, va / PGSIZE)
    ensures !panic && alloc && t == 0 ==> mem.free == []
    ensures !panic && alloc ==> (t == 0 <==> Missing(old(mem.m), r, va / PGSIZE) > |old(mem.free)|)
    ensures !panic && t != 0 ==> |mem.free| + Missing(old(mem.m), r, va / PGSIZE) == |old(mem.free)|
  {
    hide Chain, TreesOk, Pte, T0, T1, Missing;
    ghost var m0, own0 := mem.m, mem.own;
    t, panic := 0, true;
    if va >= MAXVPN * PGSIZE { return; }
    panic := false;
    var v := va / PGSIZE;
    var p, level := r, 2;
    while level > 0
      invariant 0 <= level <= 2 && mem.Ok() && mem.hole == {} && IsRoot(mem.own, r) && p == Tab(mem.m, r, v, level) != 0
      invariant SameMaps(m0, mem.m, own0) && Grew(m0, mem.m, own0, mem.own, r)
      invariant |mem.free| + Missing(m0, r, v) == |old(mem.free)| + Missing(mem.m, r, v)
      invariant !alloc ==> mem.m == m0 && mem.own == own0 && mem.free == old(mem.free)
    {
      ghost var m1, own1 := mem.m, mem.own;
      var q := Descend(mem, r, v, level, p, alloc);
      ParentsInUse(m1, own1, {});
      GrewTwice(m0, m1, mem.m, own0, own1, mem.own, r);
      SameMapsTwice(m0, m1, mem.m, own0, own1);
      if q == 0 {
        NoWay(mem.m, r, v, level);
        return false, 0;
      }
      p, level := q, level - 1;
    }
    t := p;
  }

  lemma NoWay(m: Mem, r: nat, v: nat, level: nat)
    requires 0 < level <= 2 && Tab(m, r, v, level - 1) == 0
    ensures T0(m, r, v) == 0
  {
  }

  // ---------------------------------------------------------------- mappages

  // perm | PTE_V
  function OrValid(perm: nat): (f: nat)
    requires perm < 1024
    ensures f < 1024 && Valid(f) && Leafy(f) == Leafy(perm) && (Valid(perm) ==> f == perm)
  {
    if perm % 2 == 1 then perm else perm + 1
  }

  // What the loop body of mappages did: nothing but table pages, or also the mapping.
  lemma Mapped(m: Mem, m1: Mem, m2: Mem, own: Owners, own1: Owners, r: nat, v: nat, e: nat)
    requires SameMaps(m, m1, own) && OneMap(m1, m2, own1, r, v, e) && own1.Keys == own.Keys
    requires forall p :: p in own && own[p] == Root ==> own1[p] == Root
    ensures OneMap(m, m2, own, r, v, e)
  {
    forall r', v' | IsRoot(own, r') && 0 <= v' < MAXVPN
      ensures Pte(m2, r', v') == if r' == r && v' == v then e else Pte(m, r', v') {
      assert IsRoot(own1, r');
      assert Pte(m1, r', v') == Pte(m, r', v');
    }
  }

  datatype MapResult = MapDone | MapNoMemory | MapPanic

  // One round of mappages: map virtual page v to physical page p.
  method MapOne(mem: Memory, r: nat, v: nat, p: nat, perm: nat) returns (res: MapResult)
    requires mem.Ok() && mem.hole == {} && IsRoot(mem.own, r) && perm < 1024 && Leafy(perm)
    modifies mem
    ensures mem.Ok() && mem.hole == {} && Grew(old(mem.m), mem.m, old(mem.own), mem.own, r)
    ensures res == MapPanic <==> v >= MAXVPN || Valid(Pte(old(mem.m), r, v))
    ensures res == MapDone ==> OneMap(old(mem.m), mem.m, old(mem.own), r, v, Entry(p, OrValid(perm)))
                               && T0(mem.m, r, v) != 0
    ensures res != MapDone ==> SameMaps(old(mem.m), mem.m, old(mem.own))
    ensures res == MapNoMemory ==> mem.free == []
    ensures res != MapPanic ==> (res == MapNoMemory <==> Missing(old(mem.m), r, v) > |old(mem.free)|)
    ensures res == MapDone ==> |mem.free| + Missing(old(mem.m), r, v) == |old(mem.free)|
  {
    hide Chain, TreesOk, Pte, T0, T1, OneMap, SameMaps, Released, Missing;
    ghost var m0, own0 := mem.m, mem.own;
    var panic, t := Walk(mem, r, v * PGSIZE, true);
    if panic { return MapPanic; }
    ghost var m1 := mem.m;
    SamePte(m0, m1, own0, r, v);
    if t == 0 { NoPte(mem.m, r, v); return MapNoMemory; }
    PteAt(mem.m, mem.own, r, v);
    if Valid(mem.m[t][PX(0, v)]) { return MapPanic; }
    var e := Entry(p, OrValid(perm));
    NotReleased(mem.m, mem.own, t, PX(0, v), e);
    LeafWritten(mem.m, mem.own, r, v, e);
    ChainKept(mem.m, mem.m[t := SetWord(mem.m[t], PX(0, v), e)], mem.own, mem.own, mem.head, mem.free);
    mem.m := mem.m[t := SetWord(mem.m[t], PX(0, v), e)];
    SameWay(m1, mem.m, mem.own, t, r, v);
    Mapped(m0, m1, mem.m, own0, mem.own, r, v, e);
    res := MapDone;
  }

  lemma SamePte(m: Mem, m': Mem, own: Owners, r: nat, v: nat)
    requires SameMaps(m, m', own) && IsRoot(own, r) && v < MAXVPN
    ensures Pte(m', r, v) == Pte(m, r, v)
  {
  }

  lemma NoPte(m: Mem, r: nat, v: nat)
    requires T0(m, r, v) == 0
    ensures Pte(m, r, v) == 0
  {
  }

  lemma PteAt(m: Mem, own: Owners, r: nat, v: nat)
    requires TreesOk(m, own, {}) && IsRoot(own, r) && T0(m, r, v) != 0
    ensures var t := T0(m, r, v); t in own && IsTable(own, t, 0) && t in m && |m[t]| == ENTRIES
                                  && Pte(m, r, v) == m[t][PX(0, v)]
  {
    OnPath(m, own, r, v);
  }

  // Nothing hangs from an entry that is not valid.
  lemma NotReleased(m: Mem, own: Owners, t: nat, i: nat, e: nat)
    requires TreesOk(m, own, {}) && t in m && i < |m[t]| && !Valid(m[t][i])
    ensures Released(own, t, i, e)
  {
    forall q | q in own ensures own[q] != User(t, i) { assert PageOk(m, own, {}, q); }
  }

  // ---------------------------------------------------------------- uvmunmap

  // Virtual page v of r maps a page that belongs to this mapping alone.
  ghost predicate Owned(m: Mem, own: Owners, r: nat, v: nat) {
    Valid(Pte(m, r, v)) && PageOf(Pte(m, r, v)) in own && own[PageOf(Pte(m, r, v))] == User(T0(m, r, v), PX(0, v))
  }

  // One round of uvmunmap.
  method UnmapOne(mem: Memory, r: nat, v: nat, doFree: bool) returns (panic: bool)
    requires mem.Ok() && mem.hole == {} && IsRoot(mem.own, r)
    requires v < MAXVPN && Valid(Pte(mem.m, r, v)) ==>
               if doFree then Owned(mem.m, mem.own, r, v) else !Owned(mem.m, mem.own, r, v)
    modifies mem
    ensures mem.Ok() && mem.hole == {} && (panic <==> v >= MAXVPN || !Valid(Pte(old(mem.m), r, v)))
    ensures panic ==> mem.m == old(mem.m) && mem.own == old(mem.own) && mem.free == old(mem.free)
    ensures !panic ==> OneMap(old(mem.m), mem.m, old(mem.own), r, v, 0)
    ensures !panic ==> mem.own == (if doFree then old(mem.own)[PageOf(Pte(old(mem.m), r, v)) := Free] else old(mem.own))
    ensures |mem.free| == |old(mem.free)| + (if !panic && doFree then 1 else 0)
    ensures mem.m.Keys == old(mem.m).Keys && forall q :: q in mem.own && IsData(mem.own[q]) && q in mem.m ==>
                                                           mem.m[q] == old(mem.m)[q]
  {
    hide Chain, TreesOk, Pte, T0, T1, OneMap, SameMaps, Released;
    ghost var m0, own0 := mem.m, mem.own;
    var t;
    panic, t := Walk(mem, r, v * PGSIZE, false);
    if panic { return; }
    if t == 0 { NoPte(mem.m, r, v); return true; }
    PteAt(mem.m, mem.own, r, v);
    var e := mem.m[t][PX(0, v)];
    if !Valid(e) { return true; }
    LeafEntry(mem.m, mem.own, t, PX(0, v));
    if doFree {
      LeafChildless(mem.m, mem.own, PageOf(e));
      panic := mem.Kfree(PageOf(e));
      FreedWay(m0, mem.m, own0, mem.own, r, v, PageOf(e));
    }
    ghost var m1 := mem.m;
    OnlyOwner(m0, own0, mem.own, r, v, doFree);
    LeafWritten(mem.m, mem.own, r, v, 0);
    ChainKept(mem.m, mem.m[t := SetWord(mem.m[t], PX(0, v), 0)], mem.own, mem.own, mem.head, mem.free);
    mem.m := mem.m[t := SetWord(mem.m[t], PX(0, v), 0)];
    Unmapped(m0, m1, mem.m, own0, mem.own, r, v);
    panic := false;
  }

  // A valid entry of a lowest-level table is a mapping, so its flags are not PTE_V alone.
  lemma LeafEntry(m: Mem, own: Owners, t: nat, i: nat)
    requires TreesOk(m, own, {}) && IsTable(own, t, 0) && t in m && i < |m[t]| && Valid(m[t][i])
    ensures Leafy(m[t][i]) && Flags(m[t][i]) != PTE_V
  {
    assert PageOk(m, own, {}, t);
    assert EntryOk(m, own, t, 0, i);
    NotJustValid(m[t][i]);
  }

  lemma NotJustValid(e: nat)
    requires Leafy(e)
    ensures Flags(e) != PTE_V
  {
    assert e == e / 1024 * 1024 + e % 1024;
    EntryBits(e / 1024, e % 1024);
  }

  lemma LeafChildless(m: Mem, own: Owners, p: nat)
    requires TreesOk(m, own, {}) && p in own && own[p].User?
    ensures Childless(own, p)
  {
    forall q | q in own && (own[q].Table? || own[q].User?) ensures own[q].parent != p { assert PageOk(m, own, {}, q); }
  }

  // Freeing a user page moves no table page.
  lemma FreedWay(m: Mem, m': Mem, own: Owners, own': Owners, r: nat, v: nat, p: nat)
    requires TreesOk(m, own, {}) && IsRoot(own, r) && p in own && own[p].User? && own' == own[p := Free] && p in m
             && p in m' && m' == m[p := m'[p]]
    ensures IsRoot(own', r) && T0(m', r, v) == T0(m, r, v) && SameMaps(m, m', own)
  {
    hide TreesOk;
    OnPath(m, own, r, v);
    forall r', v' | IsRoot(own, r') && 0 <= v' < MAXVPN ensures Pte(m', r', v') == Pte(m, r', v') {
      OnPath(m, own, r', v');
    }
  }

  // The page that v maps is the only one that may hang from its entry.
  lemma OnlyOwner(m: Mem, own: Owners, own': Owners, r: nat, v: nat, doFree: bool)
    requires TreesOk(m, own, {}) && IsRoot(own, r) && T0(m, r, v) != 0 && Valid(Pte(m, r, v))
             && Owned(m, own, r, v) == doFree
    requires own' == if doFree then own[PageOf(Pte(m, r, v)) := Free] else own
    ensures Released(own', T0(m, r, v), PX(0, v), 0)
  {
    hide T0, T1;
    OnPath(m, own, r, v);
    forall q | q in own && own[q] == User(T0(m, r, v), PX(0, v)) ensures doFree && q == PageOf(Pte(m, r, v)) {
      assert PageOk(m, own, {}, q);
    }
  }

  lemma Unmapped(m: Mem, m1: Mem, m2: Mem, own: Owners, own1: Owners, r: nat, v: nat)
    requires SameMaps(m, m1, own) && OneMap(m1, m2, own1, r, v, 0) && own1.Keys == own.Keys
    requires forall p :: p in own && own[p] == Root ==> own1[p] == Root
    ensures OneMap(m, m2, own, r, v, 0)
  {
    hide Pte;
    Mapped(m, m1, m2, own, own1, r, v, 0);
  }

  // ---------------------------------------------------------------- whole ranges

  // Pages v0 .. v0 + n of r map p0, p0 + 1, ...; no other translation changed.
  ghost predicate RangeMapped(m: Mem, m': Mem, own: Owners, r: nat, v0: nat, n: nat, p0: nat, flags: nat)
    requires flags < 1024
  {
    forall r', v :: IsRoot(own, r') && 0 <= v < MAXVPN ==>
      Pte(m', r', v) == if r' == r && v0 <= v < v0 + n then Entry(p0 + v - v0, flags) else Pte(m, r', v)
  }

  lemma RangeMore(m: Mem, m1: Mem, m2: Mem, own: Owners, own1: Owners, r: nat, v0: nat, n: nat, p0: nat, flags: nat)
    requires flags < 1024 && RangeMapped(m, m1, own, r, v0, n, p0, flags) && own1.Keys == own.Keys
    requires forall p :: p in own && own[p] == Root ==> own1[p] == Root
    ensures OneMap(m1, m2, own1, r, v0 + n, Entry(p0 + n, flags)) ==> RangeMapped(m, m2, own, r, v0, n + 1, p0, flags)
    ensures SameMaps(m1, m2, own1) ==> RangeMapped(m, m2, own, r, v0, n, p0, flags)
  {
    hide Pte;
    forall r' | IsRoot(own, r') ensures IsRoot(own1, r') {}
  }

  // mappages.  The mappings made before a failure stay.
  method Mappages(mem: Memory, r: nat, va: nat, size: nat, pa: nat, perm: nat)
    returns (res: int, panic: bool, ghost done: nat)
    requires mem.Ok() && mem.hole == {} && IsRoot(mem.own, r) && perm < 1024 && Leafy(perm) && pa % PGSIZE == 0
    modifies mem
    ensures mem.Ok() && mem.hole == {} && Grew(old(mem.m), mem.m, old(mem.own), mem.own, r) && res in {0, -1}
    ensures RangeMapped(old(mem.m), mem.m, old(mem.own), r, va / PGSIZE, done, pa / PGSIZE, OrValid(perm))
    ensures panic <==> va % PGSIZE != 0 || size % PGSIZE != 0 || size == 0
                       || (res == -1 && Blocked(old(mem.m), r, va / PGSIZE, done))
    ensures !panic && res == 0 ==> done == size / PGSIZE
    ensures !panic && res == -1 ==> done < size / PGSIZE && mem.free == []
  {
    hide Chain, TreesOk, Pte, T0, T1, OneMap, SameMaps, RangeMapped, Grew, Leafy;
    done, res, panic := 0, -1, true;
    ghost var m0, own0 := mem.m, mem.own;
    Nothing(m0, own0, r);
    NoRange(m0, own0, r, va / PGSIZE, pa / PGSIZE, OrValid(perm));
    if va % PGSIZE != 0 || size % PGSIZE != 0 || size == 0 { return; }
    var i, n := 0, size / PGSIZE;
    while i < n
      invariant 0 <= i <= n && done == i && mem.Ok() && mem.hole == {} && IsRoot(mem.own, r)
                && Grew(m0, mem.m, own0, mem.own, r)
      invariant RangeMapped(m0, mem.m, own0, r, va / PGSIZE, i, pa / PGSIZE, OrValid(perm))
    {
      ghost var m1, own1 := mem.m, mem.own;
      var one := MapOne(mem, r, va / PGSIZE + i, pa / PGSIZE + i, perm);
      GrewOn(m0, m1, mem.m, own0, own1, mem.own, r);
      RangeMore(m0, m1, mem.m, own0, own1, r, va / PGSIZE, i, pa / PGSIZE, OrValid(perm));
      if one != MapDone {
        SameBlocked(m0, m1, own0, r, va / PGSIZE, i, pa / PGSIZE, OrValid(perm));
        return -1, one == MapPanic, i;
      }
      i := i + 1;
      done := i;
    }
    return 0, false, n;
  }

  // mappages panics at page v0 + n: it is out of range or already mapped.
  predicate Blocked(m: Mem, r: nat, v0: nat, n: nat) { v0 + n >= MAXVPN || Valid(Pte(m, r, v0 + n)) }

  lemma SameBlocked(m: Mem, m': Mem, own: Owners, r: nat, v0: nat, n: nat, p0: nat, flags: nat)
    requires flags < 1024 && RangeMapped(m, m', own, r, v0, n, p0, flags) && IsRoot(own, r)
    ensures Blocked(m, r, v0, n) <==> v0 + n >= MAXVPN || Valid(Pte(m', r, v0 + n))
  {
    hide Pte;
  }

  lemma NoRange(m: Mem, own: Owners, r: nat, v0: nat, p0: nat, flags: nat)
    requires flags < 1024
    ensures RangeMapped(m, m, own, r, v0, 0, p0, flags)
  {
    hide Pte;
  }

  lemma GrewOn(m: Mem, m1: Mem, m2: Mem, own: Owners, own1: Owners, own2: Owners, r: nat)
    requires Grew(m, m1, own, own1, r) && Grew(m1, m2, own1, own2, r) && IsRoot(own, r) && TreesOk(m1, own1, {})
    ensures Grew(m, m2, own, own2, r) && IsRoot(own1, r) && IsRoot(own2, r) && own1.Keys == own.Keys
            && forall p :: p in own && own[p] == Root ==> own1[p] == Root
  {
    hide TreesOk;
    ParentsInUse(m1, own1, {});
    GrewTwice(m, m1, m2, own, own1, own2, r);
  }

  // ---------------------------------------------------------------- ownership keeps the way

  // Table pages that keep their owners keep their places.
  lemma WayKept(m: Mem, m': Mem, own: Owners, own': Owners, r: nat, v: nat)
    requires TreesOk(m, own, {}) && TreesOk(m', own', {}) && IsRoot(own, r) && own'.Keys == own.Keys && T0(m, r, v) != 0
    requires forall p :: p in own && (own[p].Table? || own[p].Root?) ==> own'[p] == own[p]
    ensures T0(m', r, v) == T0(m, r, v)
  {
    OnPath(m, own, r, v);
    assert PageOk(m', own', {}, T1(m, r, v)) && PageOk(m', own', {}, T0(m, r, v));
  }

  // A user page that keeps its owner stays where it is mapped.
  lemma OwnedKept(m: Mem, m': Mem, own: Owners, own': Owners, r: nat, v: nat)
    requires TreesOk(m, own, {}) && TreesOk(m', own', {}) && IsRoot(own, r) && own'.Keys == own.Keys
             && Owned(m, own, r, v)
    requires forall p :: p in own && (own[p].Table? || own[p].Root?) ==> own'[p] == own[p]
    requires own'[PageOf(Pte(m, r, v))] == own[PageOf(Pte(m, r, v))]
    ensures Owned(m', own', r, v) && PageOf(Pte(m', r, v)) == PageOf(Pte(m, r, v))
  {
    hide TreesOk, T0, T1;
    WayKept(m, m', own, own', r, v);
    PteAt(m, own, r, v);
    assert PageOk(m', own', {}, PageOf(Pte(m, r, v))) by { Hangs(m', own', PageOf(Pte(m, r, v))); }
  }

  lemma Hangs(m: Mem, own: Owners, p: nat)
    requires TreesOk(m, own, {}) && p in own
    ensures PageOk(m, own, {}, p)
  {
  }

  // Different virtual pages own different physical pages.
  lemma OwnedApart(m: Mem, own: Owners, r: nat, v: nat, v': nat)
    requires TreesOk(m, own, {}) && IsRoot(own, r) && v < MAXVPN && v' < MAXVPN && v != v' && Owned(m, own, r, v)
             && Owned(m, own, r, v')
    ensures PageOf(Pte(m, r, v)) != PageOf(Pte(m, r, v'))
  {
    hide TreesOk, T1;
    if PageOf(Pte(m, r, v)) == PageOf(Pte(m, r, v')) { OnePath(m, own, r, v, r, v'); }
  }
}
