/** User address spaces of kernel/vm.c and kernel/proc.c: growing, shrinking, copying and freeing
    them, with every physical page accounted for. */
module VmSpace {
  import opened Collections
  import opened VmPages
  import opened VmTables

  // The two pages at the top of every user address space.
  const TRAMPOLINE: nat := MAXVPN - 1
  const TRAPFRAME: nat := MAXVPN - 2

  // PGROUNDUP(sz) / PGSIZE
  function Pages(sz: nat): nat { (sz + PGSIZE - 1) / PGSIZE }

  // ---------------------------------------------------------------- a page table as a finite map

  ghost function Flat(m: Mem, r: nat): (f: map<nat, (nat, nat)>)
    ensures forall v :: v in f <==> 0 <= v < MAXVPN && Valid(Pte(m, r, v))
    ensures forall v :: v in f ==> f[v] == (PageOf(Pte(m, r, v)), Flags(Pte(m, r, v)))
  {
    map v: nat | v < MAXVPN && Valid(Pte(m, r, v)) :: (PageOf(Pte(m, r, v)), Flags(Pte(m, r, v)))
  }

  // Mapping one page adds one binding to one table's map.
  lemma MapIsInsert(m: Mem, m': Mem, own: Owners, r: nat, v: nat, p: nat, flags: nat)
    requires IsRoot(own, r) && v < MAXVPN && flags < 1024 && Valid(flags) && OneMap(m, m', own, r, v, Entry(p, flags))
    ensures Flat(m', r) == Flat(m, r)[v := (p, flags)]
    ensures forall r' :: IsRoot(own, r') && r' != r ==> Flat(m', r') == Flat(m, r')
  {
    hide Pte;
    forall r' | IsRoot(own, r') && r' != r ensures Flat(m', r') == Flat(m, r') {
      assert forall v' :: 0 <= v' < MAXVPN ==> Pte(m', r', v') == Pte(m, r', v');
    }
  }

  // Unmapping one page removes one binding.
  lemma UnmapIsRemove(m: Mem, m': Mem, own: Owners, r: nat, v: nat)
    requires IsRoot(own, r) && v < MAXVPN && OneMap(m, m', own, r, v, 0)
    ensures Flat(m', r) == Flat(m, r) - {v}
    ensures forall r' :: IsRoot(own, r') && r' != r ==> Flat(m', r') == Flat(m, r')
  {
    hide Pte;
    forall r' | IsRoot(own, r') && r' != r ensures Flat(m', r') == Flat(m, r') {
      assert forall v' :: 0 <= v' < MAXVPN ==> Pte(m', r', v') == Pte(m, r', v');
    }
  }

  // ---------------------------------------------------------------- uvmunmap

  // Pages lo .. hi of r are unmapped; no other translation changed.
  ghost predicate Cleared(m: Mem, m': Mem, own: Owners, r: nat, lo: nat, hi: nat) {
    forall r', v :: IsRoot(own, r') && 0 <= v < MAXVPN ==>
                      Pte(m', r', v) == if r' == r && lo <= v < hi then 0 else Pte(m, r', v)
  }

  lemma ClearedNone(m: Mem, own: Owners, r: nat, lo: nat)
    ensures Cleared(m, m, own, r, lo, lo)
  {
    hide Pte;
  }

  lemma ClearedMore(m: Mem, m1: Mem, m2: Mem, own: Owners, own1: Owners, r: nat, lo: nat, hi: nat)
    requires Cleared(m, m1, own, r, lo, hi) && OneMap(m1, m2, own1, r, hi, 0) && own1.Keys == own.Keys && lo <= hi
    requires forall p :: p in own && own[p] == Root ==> own1[p] == Root
    ensures Cleared(m, m2, own, r, lo, hi + 1)
  {
    hide Pte;
    forall r' | IsRoot(own, r') ensures IsRoot(own1, r') {}
  }

  // p is mapped by one of the pages lo .. hi of r.
  ghost predicate InRange(m: Mem, r: nat, lo: nat, hi: nat, p: nat) {
    exists v: nat :: lo <= v < hi && Valid(Pte(m, r, v)) && PageOf(Pte(m, r, v)) == p
  }

  // The pages mapped by lo .. hi of r were freed; no other page changed hands.
  ghost predicate Freed(m: Mem, own: Owners, own': Owners, r: nat, lo: nat, hi: nat) {
    own'.Keys == own.Keys && forall p :: p in own ==> own'[p] == if InRange(m, r, lo, hi, p) then Free else own[p]
  }

  lemma FreedNone(m: Mem, own: Owners, r: nat, lo: nat)
    ensures Freed(m, own, own, r, lo, lo)
  {
  }

  lemma FreedMore(m: Mem, own: Owners, own1: Owners, r: nat, lo: nat, hi: nat, p: nat)
    requires Freed(m, own, own1, r, lo, hi) && lo <= hi && Valid(Pte(m, r, hi)) && PageOf(Pte(m, r, hi)) == p
             && p in own
    ensures Freed(m, own, own1[p := Free], r, lo, hi + 1)
  {
    hide Pte;
    var own2 := own1[p := Free];
    forall q | q in own ensures own2[q] == if InRange(m, r, lo, hi + 1, q) then Free else own[q] {
      assert own1[q] == if InRange(m, r, lo, hi, q) then Free else own[q];
      if InRange(m, r, lo, hi, q) {
        var v: nat :| lo <= v < hi && Valid(Pte(m, r, v)) && PageOf(Pte(m, r, v)) == q;
        assert InRange(m, r, lo, hi + 1, q);
      }
    }
  }

  // Data pages that stay data pages keep their contents.
  ghost predicate DataKept(m: Mem, m': Mem, own: Owners, own': Owners) {
    && m'.Keys == m.Keys && own'.Keys == own.Keys
    && forall p :: p in own && p in m && IsData(own[p]) && IsData(own'[p]) ==> m'[p] == m[p]
  }

  // Every page lo .. hi of r maps a page of its own.
  ghost predicate AllOwned(m: Mem, own: Owners, r: nat, lo: nat, hi: nat) {
    forall v: nat :: lo <= v < hi ==> Owned(m, own, r, v)
  }

  // uvmunmap of pages that the address space owns: all of them are freed.
  method UnmapFree(mem: Memory, r: nat, lo: nat, hi: nat) returns (panic: bool)
    requires mem.Ok() && mem.hole == {} && IsRoot(mem.own, r) && lo <= hi <= MAXVPN
             && AllOwned(mem.m, mem.own, r, lo, hi)
    modifies mem
    ensures mem.Ok() && mem.hole == {} && !panic && IsRoot(mem.own, r)
    ensures Cleared(old(mem.m), mem.m, old(mem.own), r, lo, hi) && Freed(old(mem.m), old(mem.own), mem.own, r, lo, hi)
    ensures DataKept(old(mem.m), mem.m, old(mem.own), mem.own) && |mem.free| == |old(mem.free)| + hi - lo
  {
    hide Chain, TreesOk, Pte, T0, T1, OneMap, Cleared, Freed, Owned;
    ghost var m0, own0 := mem.m, mem.own;
    ClearedNone(m0, own0, r, lo);
    FreedNone(m0, own0, r, lo);
    panic := false;
    for v := lo to hi
      invariant mem.Ok() && mem.hole == {} && !panic && IsRoot(mem.own, r)
      invariant Cleared(m0, mem.m, own0, r, lo, v) && Freed(m0, own0, mem.own, r, lo, v)
      invariant DataKept(m0, mem.m, own0, mem.own) && |mem.free| == |old(mem.free)| + v - lo
    {
      ghost var m1, own1 := mem.m, mem.own;
      StillOwned(m0, m1, own0, own1, r, lo, v, hi);
      panic := UnmapOne(mem, r, v, true);
      RootsStay(m0, own0, own1, r, lo, v, hi);
      ClearedMore(m0, m1, mem.m, own0, own1, r, lo, v);
      FreedMore(m0, own0, own1, r, lo, v, PageOf(Pte(m0, r, v)));
    }
  }

  // The pages not yet reached are as they were.
  lemma StillOwned(m: Mem, m1: Mem, own: Owners, own1: Owners, r: nat, lo: nat, v: nat, hi: nat)
    requires TreesOk(m, own, {}) && TreesOk(m1, own1, {}) && IsRoot(own, r) && lo <= v < hi <= MAXVPN
             && AllOwned(m, own, r, lo, hi)
    requires Cleared(m, m1, own, r, lo, v) && Freed(m, own, own1, r, lo, v)
    ensures Owned(m1, own1, r, v) && Pte(m1, r, v) == Pte(m, r, v) && Valid(Pte(m, r, v))
            && PageOf(Pte(m, r, v)) in own && own1.Keys == own.Keys
    ensures own1[PageOf(Pte(m, r, v))].User? && forall p :: p in own && own[p] == Root ==> own1[p] == Root
  {
    hide TreesOk, Pte, T0, T1, Owned;
    RootsStay(m, own, own1, r, lo, v, hi);
    assert Owned(m, own, r, v);
    OwnedIs(m, own, r, v);
    var p := PageOf(Pte(m, r, v));
    assert !InRange(m, r, lo, v, p) by {
      forall v': nat | lo <= v' < v ensures !(Valid(Pte(m, r, v')) && PageOf(Pte(m, r, v')) == p) {
        OwnedApart(m, own, r, v, v');
      }
    }
    OwnedKept(m, m1, own, own1, r, v);
  }

  lemma OwnedIs(m: Mem, own: Owners, r: nat, v: nat)
    requires Owned(m, own, r, v)
    ensures Valid(Pte(m, r, v)) && PageOf(Pte(m, r, v)) in own && own[PageOf(Pte(m, r, v))].User?
  {
  }

  lemma RootsStay(m: Mem, own: Owners, own1: Owners, r: nat, lo: nat, v: nat, hi: nat)
    requires Freed(m, own, own1, r, lo, v) && AllOwned(m, own, r, lo, hi) && v <= hi
    ensures own1.Keys == own.Keys && forall p :: p in own && (own[p].Table? || own[p].Root?) ==> own1[p] == own[p]
  {
    hide Pte, T0;
    forall p | p in own && (own[p].Table? || own[p].Root?) ensures own1[p] == own[p] {
      if InRange(m, r, lo, v, p) {
        var v': nat :| lo <= v' < v && Valid(Pte(m, r, v')) && PageOf(Pte(m, r, v')) == p;
        OwnedIs(m, own, r, v');
      }
    }
  }

  // ---------------------------------------------------------------- uvmalloc and uvmdealloc

  // Pages lo .. hi of r are new, each with a page of its own.  Apart from that
  // only table pages of r were taken from the free ones.
  ghost predicate Expanded(m: Mem, m': Mem, own: Owners, own': Owners, r: nat, lo: nat, hi: nat) {
    && own'.Keys == own.Keys && m'.Keys == m.Keys
    && (forall r', v :: IsRoot(own, r') && 0 <= v < MAXVPN && !(r' == r && lo <= v < hi) ==>
                          Pte(m', r', v) == Pte(m, r', v))
    && AllOwned(m', own', r, lo, hi) && (forall v: nat :: lo <= v < hi ==> WasFree(own, PageOf(Pte(m', r, v))))
    && (forall p :: p in own && own[p] != Free ==> own'[p] == own[p])
    && (forall p :: p in own && own[p] == Free && own'[p] != Free ==>
                      TookTable(own', r, p) || (own'[p].User? && InRange(m', r, lo, hi, p)))
    && (forall p :: p in own && IsData(own[p]) && p in m ==> m'[p] == m[p])
  }

  predicate WasFree(own: Owners, p: nat) { p in own && own[p] == Free }

  predicate TookTable(own: Owners, r: nat, p: nat) { p in own && own[p].Table? && RootOf(own, p) == r }

  lemma ExpandedNone(m: Mem, own: Owners, r: nat, lo: nat)
    ensures Expanded(m, m, own, own, r, lo, lo)
  {
    hide Pte, T0;
  }

  // A used page becomes the user page of the entry that maps it.
  lemma Claimed(m: Mem, own: Owners, r: nat, v: nat, p: nat)
    requires TreesOk(m, own, {}) && IsRoot(own, r) && T0(m, r, v) != 0 && p in own && own[p] == Used
    requires Valid(Pte(m, r, v)) && Leafy(Pte(m, r, v)) && PageOf(Pte(m, r, v)) == p
    ensures TreesOk(m, own[p := User(T0(m, r, v), PX(0, v))], {})
            && Owned(m, own[p := User(T0(m, r, v), PX(0, v))], r, v)
  {
    PteAt(m, own, r, v);
    var t := T0(m, r, v);
    var own' := own[p := User(t, PX(0, v))];
    forall x | x in own' ensures PageOk(m, own', {}, x) {
      assert PageOk(m, own, {}, x);
      if own'[x].Root? || own'[x].Table? {
        forall j: nat | j < ENTRIES ensures EntryOk(m, own', x, Level(own'[x]), j) {
          assert EntryOk(m, own, x, Level(own[x]), j);
        }
      }
    }
  }

  // Map the page p, just allocated, at v; give it back if there is no memory for the tables.
  method PlaceOne(mem: Memory, r: nat, v: nat, p: nat, perm: nat) returns (ok: bool)
    requires mem.Ok() && mem.hole == {} && IsRoot(mem.own, r) && v < MAXVPN && Pte(mem.m, r, v) == 0 && perm < 1024
             && Leafy(perm) && p in mem.own && mem.own[p] == Used
    modifies mem
    ensures mem.Ok() && mem.hole == {} && Expanded(old(mem.m), mem.m, old(mem.own)[p := Free], mem.own, r, v,
                                                   if ok then v + 1 else v)
    ensures ok ==> Pte(mem.m, r, v) == Entry(p, OrValid(perm)) && p in mem.m && p in old(mem.m)
                   && mem.m[p] == old(mem.m)[p]
    ensures !ok ==> mem.free == [p]
  {
    hide Chain, TreesOk, Pte, T0, T1, OneMap, SameMaps, Expanded, Owned, Grew;
    ghost var m0, own1 := mem.m, mem.own;
    ghost var own0 := own1[p := Free];
    assert own1 == own0[p := Used];
    HasPage(m0, own1, p);
    assert !Valid(Pte(m0, r, v));
    var res := MapOne(mem, r, v, p, perm);
    GrewKeeps(m0, mem.m, own1, mem.own, r, p);
    ghost var m2, own2 := mem.m, mem.own;
    if res != MapDone {
      UsedChildless(mem.m, mem.own, p);
      var panic := mem.Kfree(p);
      NotGrown(m0, m2, mem.m, own0, own1, own2, mem.own, r, v, p);
      return false;
    }
    MappedAt(m0, mem.m, own1, r, v, p, OrValid(perm));
    Claimed(mem.m, mem.own, r, v, p);
    ChainKept(mem.m, mem.m, mem.own, mem.own[p := User(T0(mem.m, r, v), PX(0, v))], mem.head, mem.free);
    mem.own := mem.own[p := User(T0(mem.m, r, v), PX(0, v))];
    GrownOne(m0, mem.m, own0, own1, own2, mem.own, r, v, p, OrValid(perm));
    ok := true;
  }

  lemma HasPage(m: Mem, own: Owners, p: nat)
    requires TreesOk(m, own, {}) && p in own
    ensures p in m && |m[p]| == ENTRIES
  {
    assert PageOk(m, own, {}, p);
  }

  // One round of uvmalloc: a page for v, mapped with perm.
  method GrowOne(mem: Memory, r: nat, v: nat, perm: nat) returns (ok: bool)
    requires mem.Ok() && mem.hole == {} && IsRoot(mem.own, r) && v < MAXVPN && Pte(mem.m, r, v) == 0 && perm < 1024
             && Leafy(perm)
    modifies mem
    ensures mem.Ok() && mem.hole == {} && Expanded(old(mem.m), mem.m, old(mem.own), mem.own, r, v, if ok then v + 1
                                                   else v)
    ensures ok ==> Flags(Pte(mem.m, r, v)) == OrValid(perm)
    ensures !ok ==> |mem.free| <= 1
  {
    hide Chain, TreesOk, Pte, Expanded, Owned;
    ExpandedNone(mem.m, mem.own, r, v);
    var p := mem.Kalloc();
    if p == 0 { return false; }
    assert old(mem.own)[p := Used][p := Free] == old(mem.own);
    ok := PlaceOne(mem, r, v, p, perm);
  }

  lemma GrewKeeps(m: Mem, m': Mem, own: Owners, own': Owners, r: nat, p: nat)
    requires Grew(m, m', own, own', r) && p in own && own[p] == Used && IsRoot(own, r)
    ensures p in own' && own'[p] == Used && IsRoot(own', r) && m'.Keys == m.Keys && (p in m ==> m'[p] == m[p])
  {
  }

  lemma UsedChildless(m: Mem, own: Owners, p: nat)
    requires TreesOk(m, own, {}) && p in own && own[p] == Used
    ensures Childless(own, p)
  {
    forall q | q in own && (own[q].Table? || own[q].User?) ensures own[q].parent != p { assert PageOk(m, own, {}, q); }
  }

  lemma MappedAt(m: Mem, m': Mem, own: Owners, r: nat, v: nat, p: nat, flags: nat)
    requires IsRoot(own, r) && v < MAXVPN && flags < 1024 && OneMap(m, m', own, r, v, Entry(p, flags))
    ensures Pte(m', r, v) == Entry(p, flags)
  {
  }

  lemma NotGrownMaps(m0: Mem, m2: Mem, m3: Mem, own0: Owners, own1: Owners, own2: Owners, r: nat, p: nat)
    requires TreesOk(m2, own2, {}) && IsRoot(own0, r) && p in own0 && own0[p] == Free && own1 == own0[p := Used]
    requires Grew(m0, m2, own1, own2, r) && SameMaps(m0, m2, own1) && p in m2 && p in m3 && m3 == m2[p := m3[p]]
    ensures forall r', v :: IsRoot(own0, r') && 0 <= v < MAXVPN ==> Pte(m3, r', v) == Pte(m0, r', v)
  {
    hide TreesOk, Pte, Owned, TookTable;
    forall r', v' | IsRoot(own0, r') && 0 <= v' < MAXVPN ensures Pte(m3, r', v') == Pte(m0, r', v') {
      assert IsRoot(own1, r') && IsRoot(own2, r');
      assert Pte(m2, r', v') == Pte(m0, r', v');
      PteKept(m2, m3, own2, r', v', p);
    }
  }

  lemma NotGrown(m0: Mem, m2: Mem, m3: Mem, own0: Owners, own1: Owners, own2: Owners, own3: Owners, r: nat, v: nat,
                 p: nat)
    requires TreesOk(m2, own2, {}) && IsRoot(own0, r) && p in own0 && own0[p] == Free && own1 == own0[p := Used]
    requires Grew(m0, m2, own1, own2, r) && SameMaps(m0, m2, own1) && own3 == own2[p := Free] && p in m2 && p in m3
             && m3 == m2[p := m3[p]]
    ensures Expanded(m0, m3, own0, own3, r, v, v)
  {
    hide TreesOk, Pte, Owned;
    NotGrownMaps(m0, m2, m3, own0, own1, own2, r, p);
    forall q | q in own0 && own0[q] == Free && own3[q] != Free ensures TookTable(own3, r, q) {
      TablesSame(m2, own2, own3, r, p, q);
    }
  }

  // The parents of a table page are table pages.
  lemma TablesSame(m: Mem, own: Owners, own': Owners, r: nat, p: nat, q: nat)
    requires TreesOk(m, own, {}) && p in own && IsData(own[p]) && p in own' && own' == own[p := own'[p]]
             && (own'[p] == Free || own'[p].User?) && q in own && q != p && TookTable(own, r, q)
    ensures TookTable(own', r, q)
  {
    assert PageOk(m, own, {}, q);
  }

  // What lies in data pages is no matter to any translation.
  lemma PteKept(m: Mem, m': Mem, own: Owners, r: nat, v: nat, p: nat)
    requires TreesOk(m, own, {}) && IsRoot(own, r) && p in own && IsData(own[p]) && p in m && p in m'
             && m' == m[p := m'[p]]
    ensures Pte(m', r, v) == Pte(m, r, v)
  {
    hide TreesOk;
    OnPath(m, own, r, v);
  }

  lemma GrewTable(m: Mem, m': Mem, own: Owners, own': Owners, r: nat, q: nat)
    requires Grew(m, m', own, own', r) && q in own && own[q] == Free && own'[q] != Free
    ensures TookTable(own', r, q)
  {
  }

  lemma InOne(m: Mem, r: nat, v: nat, p: nat, flags: nat)
    requires flags < 1024 && Valid(flags) && Pte(m, r, v) == Entry(p, flags)
    ensures InRange(m, r, v, v + 1, p) && PageOf(Pte(m, r, v)) == p
  {
    hide Pte;
  }

  lemma GrownMaps(m0: Mem, m2: Mem, own0: Owners, own1: Owners, r: nat, v: nat, e: nat)
    requires OneMap(m0, m2, own1, r, v, e) && own1.Keys == own0.Keys
             && forall p :: p in own0 && own0[p] == Root ==> own1[p] == Root
    ensures forall r', v' :: IsRoot(own0, r') && 0 <= v' < MAXVPN && !(r' == r && v <= v' < v + 1) ==>
                               Pte(m2, r', v') == Pte(m0, r', v')
  {
    hide Pte;
    forall r' | IsRoot(own0, r') ensures IsRoot(own1, r') {}
  }

  lemma GrownOne(m0: Mem, m2: Mem, own0: Owners, own1: Owners, own2: Owners, own3: Owners, r: nat, v: nat, p: nat,
                 flags: nat)
    requires TreesOk(m2, own2, {}) && IsRoot(own0, r) && p in own0 && own0[p] == Free && own1 == own0[p := Used]
             && v < MAXVPN && flags < 1024 && Valid(flags)
    requires Grew(m0, m2, own1, own2, r) && OneMap(m0, m2, own1, r, v, Entry(p, flags)) && p in own3
             && own3 == own2[p := own3[p]] && own3[p].User?
    requires Owned(m2, own3, r, v)
    ensures Expanded(m0, m2, own0, own3, r, v, v + 1)
  {
    hide TreesOk, Pte, Owned, InRange, Entry, TookTable, OneMap;
    GrownMaps(m0, m2, own0, own1, r, v, Entry(p, flags));
    MappedAt(m0, m2, own1, r, v, p, flags);
    InOne(m2, r, v, p, flags);
    forall q | q in own0 && own0[q] == Free && own3[q] != Free && q != p ensures TookTable(own3, r, q) {
      GrewTable(m0, m2, own1, own2, r, q);
      TablesSame(m2, own2, own3, r, p, q);
    }
  }

  // Growing twice.
  lemma ExpandedMore(m0: Mem, m1: Mem, m2: Mem, own0: Owners, own1: Owners, own2: Owners, r: nat, lo: nat, v: nat,
                     hi: nat)
    requires TreesOk(m1, own1, {}) && TreesOk(m2, own2, {}) && IsRoot(own0, r) && lo <= v <= hi <= MAXVPN
    requires Expanded(m0, m1, own0, own1, r, lo, v) && Expanded(m1, m2, own1, own2, r, v, hi)
    ensures Expanded(m0, m2, own0, own2, r, lo, hi)
  {
    hide TreesOk, Pte, Owned, InRange, TookTable;
    forall r', v' | IsRoot(own0, r') && 0 <= v' < MAXVPN && !(r' == r && lo <= v' < hi)
      ensures Pte(m2, r', v') == Pte(m0, r', v') {
      assert IsRoot(own1, r') && Pte(m1, r', v') == Pte(m0, r', v');
    }
    forall v': nat | lo <= v' < hi ensures Owned(m2, own2, r, v') && WasFree(own0, PageOf(Pte(m2, r, v'))) {
      if v' < v {
        OwnedIs(m1, own1, r, v');
        OwnedKept(m1, m2, own1, own2, r, v');
        assert Pte(m2, r, v') == Pte(m1, r, v');
      }
    }
    forall p | p in own0 && own0[p] == Free && own2[p] != Free
      ensures TookTable(own2, r, p) || (own2[p].User? && InRange(m2, r, lo, hi, p)) {
      if own1[p] == Free { Wider(m2, r, lo, v, hi, p); }
      else {
        TookMore(m1, own1, own2, r, p);
        if InRange(m1, r, lo, v, p) { SameRange(m1, m2, own1, r, lo, v, hi, p); }
      }
    }
  }

  lemma Wider(m: Mem, r: nat, lo: nat, v: nat, hi: nat, p: nat)
    requires lo <= v <= hi
    ensures InRange(m, r, v, hi, p) ==> InRange(m, r, lo, hi, p)
  {
    hide Pte;
  }

  lemma TookMore(m: Mem, own: Owners, own': Owners, r: nat, p: nat)
    requires TreesOk(m, own, {}) && own'.Keys == own.Keys && p in own && own'[p] == own[p]
             && forall q :: q in own && own[q] != Free ==> own'[q] == own[q]
    ensures TookTable(own, r, p) ==> TookTable(own', r, p)
  {
    assert PageOk(m, own, {}, p);
  }

  lemma SameRange(m1: Mem, m2: Mem, own1: Owners, r: nat, lo: nat, v: nat, hi: nat, p: nat)
    requires IsRoot(own1, r) && lo <= v <= hi <= MAXVPN && InRange(m1, r, lo, v, p)
    requires forall r', v' :: IsRoot(own1, r') && 0 <= v' < MAXVPN && !(r' == r && v <= v' < hi) ==>
                                Pte(m2, r', v') == Pte(m1, r', v')
    ensures InRange(m2, r, lo, hi, p)
  {
    hide Pte;
    var v': nat :| lo <= v' < v && Valid(Pte(m1, r, v')) && PageOf(Pte(m1, r, v')) == p;
    assert Pte(m2, r, v') == Pte(m1, r, v');
  }

  // The address space of r has exactly the pages below n, below the two special ones.
  ghost predicate UserOk(m: Mem, own: Owners, r: nat, n: nat) {
    && IsRoot(own, r) && n <= TRAPFRAME && AllOwned(m, own, r, 0, n)
    && (forall v: nat :: n <= v < TRAPFRAME ==> Pte(m, r, v) == 0)
  }

  // Taking back what was expanded leaves only table pages behind.
  lemma Undone(m0: Mem, m1: Mem, m2: Mem, own0: Owners, own1: Owners, own2: Owners, r: nat, lo: nat, hi: nat)
    requires TreesOk(m1, own1, {}) && IsRoot(own0, r) && lo <= hi <= MAXVPN && Expanded(m0, m1, own0, own1, r, lo, hi)
    requires forall v: nat :: lo <= v < hi ==> Pte(m0, r, v) == 0
    requires Cleared(m1, m2, own1, r, lo, hi) && Freed(m1, own1, own2, r, lo, hi) && DataKept(m1, m2, own1, own2)
    ensures SameMaps(m0, m2, own0) && Grew(m0, m2, own0, own2, r)
  {
    hide TreesOk, Pte, Owned;
    forall r', v | IsRoot(own0, r') && 0 <= v < MAXVPN ensures Pte(m2, r', v) == Pte(m0, r', v) {
      assert IsRoot(own1, r');
    }
    forall p | p in own1 ensures own2[p] == own1[p] || (own1[p].User? && own2[p] == Free && WasFree(own0, p)) {
      if InRange(m1, r, lo, hi, p) {
        var v: nat :| lo <= v < hi && Valid(Pte(m1, r, v)) && PageOf(Pte(m1, r, v)) == p;
        OwnedIs(m1, own1, r, v);
      }
    }
    forall p | p in own0 && own0[p] == Free && own2[p] != Free ensures own2[p].Table? && RootOf(own2, p) == r {
      TookStill(m1, own1, own2, r, p);
    }
  }

  lemma TookStill(m: Mem, own: Owners, own': Owners, r: nat, p: nat)
    requires TreesOk(m, own, {}) && own'.Keys == own.Keys && p in own && own'[p] == own[p] && TookTable(own, r, p)
    requires forall q :: q in own && (own[q].Table? || own[q].Root?) ==> own'[q] == own[q]
    ensures TookTable(own', r, p)
  {
    assert PageOk(m, own, {}, p);
  }

  // ---------------------------------------------------------------- the calls

  // uvmdealloc
  method Uvmdealloc(mem: Memory, r: nat, oldsz: nat, newsz: nat) returns (sz: nat, panic: bool)
    requires mem.Ok() && mem.hole == {} && IsRoot(mem.own, r) && Pages(oldsz) <= TRAPFRAME
             && AllOwned(mem.m, mem.own, r, Pages(newsz), Pages(oldsz))
    modifies mem
    ensures mem.Ok() && mem.hole == {} && !panic && IsRoot(mem.own, r) && sz == if newsz >= oldsz then oldsz else newsz
    ensures newsz >= oldsz ==> mem.m == old(mem.m) && mem.own == old(mem.own) && mem.free == old(mem.free)
    ensures newsz < oldsz ==>
              && Cleared(old(mem.m), mem.m, old(mem.own), r, Pages(newsz), Pages(oldsz))
              && Freed(old(mem.m), old(mem.own), mem.own, r, Pages(newsz), Pages(oldsz))
              && DataKept(old(mem.m), mem.m, old(mem.own), mem.own)
              && |mem.free| == |old(mem.free)| + Pages(oldsz) - Pages(newsz)
  {
    hide Chain, TreesOk, Pte, T0, T1, Cleared, Freed, Owned, AllOwned;
    panic := false;
    if newsz >= oldsz { return oldsz, false; }
    assert Pages(newsz) <= Pages(oldsz);
    ClearedNone(mem.m, mem.own, r, Pages(newsz));
    FreedNone(mem.m, mem.own, r, Pages(newsz));
    if Pages(newsz) < Pages(oldsz) { panic := UnmapFree(mem, r, Pages(newsz), Pages(oldsz)); }
    sz := newsz;
  }

  // The pages of the first n addresses of r.
  ghost function Held(m: Mem, r: nat, n: nat): (s: set<nat>)
    ensures forall p :: p in s <==> exists v: nat :: v < n && PageOf(Pte(m, r, v)) == p
  {
    set v: nat | v < n :: PageOf(Pte(m, r, v))
  }

  lemma {:induction false} HeldSize(m: Mem, own: Owners, r: nat, n: nat)
    requires TreesOk(m, own, {}) && IsRoot(own, r) && n <= MAXVPN && AllOwned(m, own, r, 0, n)
    ensures |Held(m, r, n)| == n
  {
    hide TreesOk, Pte;
    if n > 0 {
      HeldSize(m, own, r, n - 1);
      var p := PageOf(Pte(m, r, n - 1));
      forall v: nat | v < n - 1 ensures PageOf(Pte(m, r, v)) != p { OwnedApart(m, own, r, v, n - 1); }
      assert Held(m, r, n) == Held(m, r, n - 1) + {p};
    }
  }

  // No address space has more pages than the machine.
  lemma NoMoreThanMemory(lo: nat, hi: nat, m: Mem, own: Owners, r: nat, n: nat)
    requires lo <= hi && (forall p :: p in own <==> lo <= p < hi) && TreesOk(m, own, {}) && UserOk(m, own, r, n)
    ensures n <= hi - lo
  {
    hide TreesOk, Pte;
    HeldSize(m, own, r, n);
    forall p | p in Held(m, r, n) ensures p in Span(lo, hi) {
      var v: nat :| v < n && PageOf(Pte(m, r, v)) == p;
      assert Owned(m, own, r, v);
    }
    SubsetSize(Held(m, r, n), Span(lo, hi));
  }

  // A machine with fewer pages than there are addresses below the trap frame.
  predicate SmallMachine(lo: nat, hi: nat) { hi - lo < TRAPFRAME }

  // uvmalloc.  On failure every translation is as before, every page but new table pages has its
  // old owner, and there are no more free pages than were asked for.
  method Uvmalloc(mem: Memory, r: nat, oldsz: nat, newsz: nat, xperm: nat) returns (sz: nat)
    requires mem.Ok() && mem.hole == {} && UserOk(mem.m, mem.own, r, Pages(oldsz))
             && xperm in {0, PTE_W, PTE_X, PTE_W + PTE_X}
    requires SmallMachine(mem.lo, mem.hi) || Pages(newsz) <= TRAPFRAME
    modifies mem
    ensures mem.Ok() && mem.hole == {}
    ensures newsz < oldsz ==> sz == oldsz && mem.m == old(mem.m) && mem.own == old(mem.own) && mem.free == old(mem.free)
    ensures newsz >= oldsz ==> sz in {0, newsz}
    ensures newsz >= oldsz && sz == newsz ==> Expanded(old(mem.m), mem.m, old(mem.own), mem.own, r, Pages(oldsz),
                                                       Pages(newsz)) && UserOk(mem.m, mem.own, r, Pages(newsz))
    ensures newsz >= oldsz && sz == newsz ==>
              forall v: nat :: Pages(oldsz) <= v < Pages(newsz) ==>
                                 Flags(Pte(mem.m, r, v)) == PTE_V + PTE_R + PTE_U + xperm
    ensures newsz >= oldsz && sz != newsz ==> |mem.free| <= Pages(newsz) - Pages(oldsz)
    ensures newsz >= oldsz && sz != newsz ==> SameMaps(old(mem.m), mem.m, old(mem.own))
                                              && Grew(old(mem.m), mem.m, old(mem.own), mem.own, r)
                                                 && UserOk(mem.m, mem.own, r, Pages(oldsz))
  {
    hide Chain, TreesOk, Pte, T0, T1, Expanded, Owned, SameMaps, Grew;
    if newsz < oldsz { return oldsz; }
    ghost var m0, own0 := mem.m, mem.own;
    var lo, hi, perm := Pages(oldsz), Pages(newsz), PTE_R + PTE_U + xperm;
    assert lo <= hi && OrValid(perm) == PTE_V + PTE_R + PTE_U + xperm && Leafy(perm);
    ExpandedNone(m0, own0, r, lo);
    for v := lo to hi
      invariant mem.Ok() && mem.hole == {} && IsRoot(mem.own, r) && Expanded(m0, mem.m, own0, mem.own, r, lo, v)
      invariant forall v': nat :: lo <= v' < v ==> Flags(Pte(mem.m, r, v')) == OrValid(perm)
      invariant v <= TRAPFRAME
    {
      ghost var m1, own1 := mem.m, mem.own;
      UserGrows(m0, m1, own0, own1, r, lo, v);
      NoMoreThanMemory(mem.lo, mem.hi, m1, own1, r, v);
      NotYet(m0, m1, own0, own1, r, lo, v);
      var ok := GrowOne(mem, r, v, perm);
      EarlierKept(m1, mem.m, own1, mem.own, r, v, if ok then v + 1 else v);
      ExpandedMore(m0, m1, mem.m, own0, own1, mem.own, r, lo, v, if ok then v + 1 else v);
      RootStays(m0, mem.m, own0, mem.own, r, lo, if ok then v + 1 else v);
      if !ok {
        ghost var m2, own2 := mem.m, mem.own;
        WholePages(v);
        WholePages(lo);
        var undone, panic := Uvmdealloc(mem, r, v * PGSIZE, lo * PGSIZE);
        if v > lo {
          Undone(m0, m2, mem.m, own0, own2, mem.own, r, lo, v);
        } else {
          UndoneNone(m0, m2, own0, own2, r, lo);
        }
        UserStays(m0, mem.m, own0, mem.own, r, lo);
        return 0;
      }
    }
    UserGrows(m0, mem.m, own0, mem.own, r, lo, hi);
    sz := newsz;
  }

  // Pages below the new ones are mapped as before.
  lemma EarlierKept(m: Mem, m': Mem, own: Owners, own': Owners, r: nat, lo: nat, hi: nat)
    requires IsRoot(own, r) && lo <= hi <= MAXVPN && Expanded(m, m', own, own', r, lo, hi)
    ensures forall v: nat :: v < lo ==> Pte(m', r, v) == Pte(m, r, v)
  {
    hide Pte, Owned;
  }

  lemma WholePages(n: nat)
    ensures Pages(n * PGSIZE) == n
  {
  }

  lemma NotYet(m: Mem, m': Mem, own: Owners, own': Owners, r: nat, lo: nat, v: nat)
    requires UserOk(m, own, r, lo) && lo <= v < TRAPFRAME && Expanded(m, m', own, own', r, lo, v)
    ensures Pte(m', r, v) == 0
  {
    hide Pte, Owned;
  }

  lemma RootStays(m: Mem, m': Mem, own: Owners, own': Owners, r: nat, lo: nat, hi: nat)
    requires IsRoot(own, r) && Expanded(m, m', own, own', r, lo, hi)
    ensures IsRoot(own', r) && AllOwned(m', own', r, lo, hi)
  {
  }

  lemma UndoneNone(m: Mem, m': Mem, own: Owners, own': Owners, r: nat, lo: nat)
    requires Expanded(m, m', own, own', r, lo, lo)
    ensures SameMaps(m, m', own) && Grew(m, m', own, own', r)
  {
    hide Pte, Owned;
  }

  lemma UserStays(m: Mem, m': Mem, own: Owners, own': Owners, r: nat, n: nat)
    requires TreesOk(m, own, {}) && TreesOk(m', own', {}) && UserOk(m, own, r, n) && SameMaps(m, m', own)
             && Grew(m, m', own, own', r)
    ensures UserOk(m', own', r, n)
  {
    hide TreesOk, Pte, Owned;
    forall v: nat | v < n ensures Owned(m', own', r, v) { OwnedIs(m, own, r, v); OwnedKept(m, m', own, own', r, v); }
  }

  lemma UserGrows(m: Mem, m': Mem, own: Owners, own': Owners, r: nat, lo: nat, hi: nat)
    requires TreesOk(m, own, {}) && TreesOk(m', own', {}) && UserOk(m, own, r, lo) && lo <= hi <= TRAPFRAME
             && Expanded(m, m', own, own', r, lo, hi)
    ensures UserOk(m', own', r, hi)
  {
    hide TreesOk, Pte, Owned;
    forall v: nat | v < hi ensures Owned(m', own', r, v) {
      if v < lo { OwnedIs(m, own, r, v); OwnedKept(m, m', own, own', r, v); }
    }
  }
}
