/** The memory of processes (kernel/vm.c and kernel/proc.c): making, growing, copying and freeing
    whole address spaces. */
module VmProc {
  import opened VmPages
  import opened VmTables
  import opened VmSpace
  import opened VmFree

  // ---------------------------------------------------------------- other address spaces

  // Pages that are not free keep their owners, and translations outside r are the same.
  ghost predicate Apart(m: Mem, m': Mem, own: Owners, own': Owners, r: nat) {
    && own'.Keys == own.Keys && (forall p :: p in own && own[p] != Free ==> own'[p] == own[p])
    && (forall r', v :: IsRoot(own, r') && r' != r && 0 <= v < MAXVPN ==> Pte(m', r', v) == Pte(m, r', v))
  }

  // Growing one address space leaves every other one as it was.
  lemma OtherSpaces(m: Mem, m': Mem, own: Owners, own': Owners, r: nat, r': nat, n: nat)
    requires TreesOk(m, own, {}) && TreesOk(m', own', {}) && Apart(m, m', own, own', r) && r' != r
             && UserOk(m, own, r', n)
    ensures UserOk(m', own', r', n)
  {
    hide TreesOk, Pte, Owned;
    forall v: nat | v < n ensures Owned(m', own', r', v) { OwnedIs(m, own, r', v); OwnedKept(m, m', own, own', r', v); }
  }

  lemma ExpandedApart(m: Mem, m': Mem, own: Owners, own': Owners, r: nat, lo: nat, hi: nat)
    requires Expanded(m, m', own, own', r, lo, hi)
    ensures Apart(m, m', own, own', r)
  {
    hide Pte, Owned;
  }

  // Shrinking leaves the lower pages.
  lemma UserShrinks(m: Mem, m': Mem, own: Owners, own': Owners, r: nat, lo: nat, hi: nat)
    requires TreesOk(m, own, {}) && TreesOk(m', own', {}) && UserOk(m, own, r, hi) && lo <= hi
             && Cleared(m, m', own, r, lo, hi) && Freed(m, own, own', r, lo, hi)
    ensures UserOk(m', own', r, lo)
  {
    hide TreesOk, Pte, Owned, InRange;
    RootsStay(m, own, own', r, lo, hi, hi);
    forall v: nat | v < lo ensures Owned(m', own', r, v) {
      OwnedIs(m, own, r, v);
      Below(m, own, r, lo, hi, v);
      OwnedKept(m, m', own, own', r, v);
    }
  }

  lemma Below(m: Mem, own: Owners, r: nat, lo: nat, hi: nat, v: nat)
    requires TreesOk(m, own, {}) && UserOk(m, own, r, hi) && v < lo <= hi
    ensures !InRange(m, r, lo, hi, PageOf(Pte(m, r, v)))
  {
    hide TreesOk, Pte, Owned;
    forall v': nat | lo <= v' < hi ensures !(Valid(Pte(m, r, v')) && PageOf(Pte(m, r, v')) == PageOf(Pte(m, r, v))) {
      assert Owned(m, own, r, v) && Owned(m, own, r, v');
      OwnedApart(m, own, r, v, v');
    }
  }

  // ---------------------------------------------------------------- which pages change hands

  // Only free pages and pages of r changed hands, between these two.
  ghost predicate Within(own: Owners, own': Owners, r: nat) {
    own'.Keys == own.Keys && forall p :: p in own ==>
      if own[p] == Free || RootOf(own, p) == r then own'[p] == Free || RootOf(own', p) == r else own'[p] == own[p]
  }

  lemma WithinNone(own: Owners, r: nat)
    ensures Within(own, own, r)
  {
  }

  // Pages whose parents stay where they are belong to the same table.
  lemma RootKept(m: Mem, own: Owners, own': Owners, p: nat)
    requires TreesOk(m, own, {}) && own'.Keys == own.Keys && p in own && own'[p] == own[p]
    requires forall q :: q in own && (own[q].Table? || own[q].Root?) ==> own'[q] == own[q]
    ensures RootOf(own', p) == RootOf(own, p)
  {
    assert PageOk(m, own, {}, p);
    if own[p].Table? || own[p].User? {
      assert PageOk(m, own, {}, own[p].parent);
      if own[own[p].parent].Table? { assert PageOk(m, own, {}, own[own[p].parent].parent); }
    }
  }

  lemma ExpandedWithin(m: Mem, m': Mem, own: Owners, own': Owners, r: nat, lo: nat, hi: nat)
    requires TreesOk(m, own, {}) && TreesOk(m', own', {}) && IsRoot(own, r) && hi <= TRAPFRAME
             && Expanded(m, m', own, own', r, lo, hi)
    ensures Within(own, own', r) && SpecialKept(m, m', r)
  {
    hide TreesOk, Pte;
    forall p | p in own ensures if own[p] == Free || RootOf(own, p) == r then own'[p] == Free
        || RootOf(own', p) == r else own'[p] == own[p] {
      if own[p] != Free { RootKept(m, own, own', p); }
      else if InRange(m', r, lo, hi, p) {
        var v: nat :| lo <= v < hi && Valid(Pte(m', r, v)) && PageOf(Pte(m', r, v)) == p;
        SpotRoot(m', own', r, v);
      }
    }
  }

  lemma GrewWithin(m: Mem, m': Mem, own: Owners, own': Owners, r: nat)
    requires TreesOk(m, own, {}) && IsRoot(own, r) && Grew(m, m', own, own', r) && SameMaps(m, m', own)
    ensures Within(own, own', r) && SpecialKept(m, m', r)
  {
    hide TreesOk, Pte;
    forall p | p in own ensures if own[p] == Free || RootOf(own, p) == r then own'[p] == Free
        || RootOf(own', p) == r else own'[p] == own[p] {
      if own[p] != Free { RootKept(m, own, own', p); }
    }
  }

  lemma FreedWithin(m: Mem, m': Mem, own: Owners, own': Owners, r: nat, lo: nat, hi: nat)
    requires TreesOk(m, own, {}) && UserOk(m, own, r, hi) && Freed(m, own, own', r, lo, hi)
             && Cleared(m, m', own, r, lo, hi)
    ensures Within(own, own', r) && SpecialKept(m, m', r)
  {
    hide TreesOk, Pte;
    RootsStay(m, own, own', r, lo, hi, hi);
    forall p | p in own ensures if own[p] == Free || RootOf(own, p) == r then own'[p] == Free
        || RootOf(own', p) == r else own'[p] == own[p] {
      if InRange(m, r, lo, hi, p) {
        var v: nat :| lo <= v < hi && Valid(Pte(m, r, v)) && PageOf(Pte(m, r, v)) == p;
        assert Owned(m, own, r, v);
        SpotRoot(m, own, r, v);
      } else { RootKept(m, own, own', p); }
    }
  }

  // The trampoline and the trap frame are mapped as before.
  predicate SpecialKept(m: Mem, m': Mem, r: nat) {
    Pte(m', r, TRAPFRAME) == Pte(m, r, TRAPFRAME) && Pte(m', r, TRAMPOLINE) == Pte(m, r, TRAMPOLINE)
  }

  // ---------------------------------------------------------------- growproc

  const HEAP_FLAGS: nat := PTE_V + PTE_R + PTE_W + PTE_U

  // Page v of r is mapped as before and holds the same words.
  predicate PageKept(m: Mem, m': Mem, r: nat, v: nat) {
    && Pte(m', r, v) == Pte(m, r, v) && PageOf(Pte(m, r, v)) in m && PageOf(Pte(m, r, v)) in m'
    && m'[PageOf(Pte(m, r, v))] == m[PageOf(Pte(m, r, v))]
  }

  ghost predicate PagesKept(m: Mem, m': Mem, r: nat, n: nat) { forall v: nat :: v < n ==> PageKept(m, m', r, v) }

  // The pages lo .. hi of r may be read and written by the user.
  ghost predicate AllHeap(m: Mem, r: nat, lo: nat, hi: nat) {
    forall v: nat :: lo <= v < hi ==> Flags(Pte(m, r, v)) == HEAP_FLAGS
  }

  function Fewer(a: nat, b: nat): nat { if a < b then a else b }

  lemma KeptNone(m: Mem, own: Owners, r: nat, n: nat)
    requires TreesOk(m, own, {}) && UserOk(m, own, r, n)
    ensures PagesKept(m, m, r, n)
  {
    hide TreesOk, Pte;
    forall v: nat | v < n ensures PageKept(m, m, r, v) {
      assert Owned(m, own, r, v);
      HasPage(m, own, PageOf(Pte(m, r, v)));
    }
  }

  lemma KeptGrown(m: Mem, m': Mem, own: Owners, own': Owners, r: nat, n: nat)
    requires TreesOk(m, own, {}) && UserOk(m, own, r, n) && Grew(m, m', own, own', r) && SameMaps(m, m', own)
    ensures PagesKept(m, m', r, n)
  {
    hide TreesOk, Pte;
    forall v: nat | v < n ensures PageKept(m, m', r, v) {
      assert Owned(m, own, r, v);
      HasPage(m, own, PageOf(Pte(m, r, v)));
    }
  }

  lemma KeptExpanded(m: Mem, m': Mem, own: Owners, own': Owners, r: nat, lo: nat, hi: nat)
    requires TreesOk(m, own, {}) && UserOk(m, own, r, lo) && Expanded(m, m', own, own', r, lo, hi)
    ensures PagesKept(m, m', r, lo)
  {
    hide TreesOk, Pte, TookTable, InRange;
    forall v: nat | v < lo ensures PageKept(m, m', r, v) {
      assert Owned(m, own, r, v);
      HasPage(m, own, PageOf(Pte(m, r, v)));
    }
  }

  lemma KeptShrunk(m: Mem, m': Mem, own: Owners, own': Owners, r: nat, lo: nat, hi: nat)
    requires TreesOk(m, own, {}) && UserOk(m, own, r, hi) && UserOk(m', own', r, lo) && lo <= hi
    requires Cleared(m, m', own, r, lo, hi) && DataKept(m, m', own, own')
    ensures PagesKept(m, m', r, lo)
  {
    hide TreesOk, Pte;
    forall v: nat | v < lo ensures PageKept(m, m', r, v) {
      assert Owned(m, own, r, v) && Owned(m', own', r, v);
      HasPage(m, own, PageOf(Pte(m, r, v)));
    }
  }

  // growproc; sizes are 64-bit and a size below zero wraps to one that uvmdealloc ignores.
  method Growproc(mem: Memory, r: nat, size: nat, n: int) returns (res: int, newsize: nat)
    requires mem.Ok() && mem.hole == {} && UserOk(mem.m, mem.own, r, Pages(size)) && size < 0x1_0000_0000_0000_0000
    requires -0x8000_0000 <= n < 0x8000_0000 && (SmallMachine(mem.lo, mem.hi) || n <= 0 || Pages(size + n) <= TRAPFRAME)
    modifies mem
    ensures mem.Ok() && mem.hole == {} && UserOk(mem.m, mem.own, r, Pages(newsize))
    ensures res in {0, -1} && (res == 0 ==> newsize == if size + n < 0 then size else size + n)
    ensures res == -1 ==> n > 0 && newsize == size && SameMaps(old(mem.m), mem.m, old(mem.own))
                          && |mem.free| <= Pages(size + n) - Pages(size)
    ensures forall r', k :: r' != r && UserOk(old(mem.m), old(mem.own), r', k) ==> UserOk(mem.m, mem.own, r', k)
    ensures Within(old(mem.own), mem.own, r) && SpecialKept(old(mem.m), mem.m, r)
    ensures res == 0 && n > 0 ==> AllHeap(mem.m, r, Pages(size), Pages(newsize))
    ensures PagesKept(old(mem.m), mem.m, r, Fewer(Pages(size), Pages(newsize)))
  {
    hide Chain, TreesOk, Pte, Owned, UserOk, Expanded, SameMaps, Cleared, Freed, DataKept, Grew, Within, PagesKept;
    ghost var m0, own0 := mem.m, mem.own;
    WithinNone(own0, r);
    KeptNone(m0, own0, r, Pages(size));
    newsize, res := size, 0;
    if n > 0 {
      IsUser(m0, own0, r, Pages(size));
      var sz := Uvmalloc(mem, r, size, size + n, PTE_W);
      if sz == 0 {
        GrewWithin(m0, mem.m, own0, mem.own, r);
        KeptGrown(m0, mem.m, own0, mem.own, r, Pages(size));
        GrewApart(m0, mem.m, own0, mem.own, r);
        AllOthers(m0, mem.m, own0, mem.own, r);
        return -1, size;
      }
      IsUser(mem.m, mem.own, r, Pages(size + n));
      KeptExpanded(m0, mem.m, own0, mem.own, r, Pages(size), Pages(size + n));
      ExpandedWithin(m0, mem.m, own0, mem.own, r, Pages(size), Pages(size + n));
      ExpandedApart(m0, mem.m, own0, mem.own, r, Pages(size), Pages(size + n));
      AllOthers(m0, mem.m, own0, mem.own, r);
      newsize := sz;
    } else if n < 0 {
      var want := if size + n < 0 then size + n + 0x1_0000_0000_0000_0000 else size + n;
      IsUser(m0, own0, r, Pages(size));
      if want < size {
        Part(m0, own0, r, Pages(want), Pages(size));
      } else {
        NoPart(m0, own0, r, Pages(want), Pages(size));
      }
      var sz, panic := Uvmdealloc(mem, r, size, want);
      if want < size {
        UserShrinks(m0, mem.m, own0, mem.own, r, Pages(want), Pages(size));
        KeptShrunk(m0, mem.m, own0, mem.own, r, Pages(want), Pages(size));
        OthersShrink(m0, mem.m, own0, mem.own, r, Pages(want), Pages(size));
        FreedWithin(m0, mem.m, own0, mem.own, r, Pages(want), Pages(size));
      }
      newsize := sz;
    }
  }

  lemma IsUser(m: Mem, own: Owners, r: nat, n: nat)
    requires UserOk(m, own, r, n)
    ensures IsRoot(own, r) && n <= TRAPFRAME && AllOwned(m, own, r, 0, n)
  {
  }

  lemma Part(m: Mem, own: Owners, r: nat, lo: nat, hi: nat)
    requires AllOwned(m, own, r, 0, hi)
    ensures AllOwned(m, own, r, lo, hi)
  {
  }

  lemma NoPart(m: Mem, own: Owners, r: nat, lo: nat, hi: nat)
    requires hi <= lo
    ensures AllOwned(m, own, r, lo, hi)
  {
  }

  lemma GrewApart(m: Mem, m': Mem, own: Owners, own': Owners, r: nat)
    requires Grew(m, m', own, own', r) && SameMaps(m, m', own)
    ensures Apart(m, m', own, own', r)
  {
    hide Pte;
  }

  lemma AllOthers(m: Mem, m': Mem, own: Owners, own': Owners, r: nat)
    requires TreesOk(m, own, {}) && TreesOk(m', own', {}) && Apart(m, m', own, own', r)
    ensures forall r', k :: r' != r && UserOk(m, own, r', k) ==> UserOk(m', own', r', k)
  {
    hide TreesOk, Pte, UserOk, Apart;
    forall r', k | r' != r && UserOk(m, own, r', k) ensures UserOk(m', own', r', k) {
      OtherSpaces(m, m', own, own', r, r', k);
    }
  }

  lemma OthersShrink(m: Mem, m': Mem, own: Owners, own': Owners, r: nat, lo: nat, hi: nat)
    requires TreesOk(m, own, {}) && TreesOk(m', own', {}) && UserOk(m, own, r, hi) && lo <= hi
             && Cleared(m, m', own, r, lo, hi) && Freed(m, own, own', r, lo, hi)
    ensures forall r', k :: r' != r && UserOk(m, own, r', k) ==> UserOk(m', own', r', k)
  {
    hide TreesOk, Pte, Owned, InRange;
    RootsStay(m, own, own', r, lo, hi, hi);
    forall r', k | r' != r && UserOk(m, own, r', k) ensures UserOk(m', own', r', k) {
      forall v: nat | v < k ensures Owned(m', own', r', v) {
        OwnedIs(m, own, r', v);
        Elsewhere(m, own, r, lo, hi, r', v);
        OwnedKept(m, m', own, own', r', v);
      }
    }
  }

  // A page that another address space owns is not in this one.
  lemma Elsewhere(m: Mem, own: Owners, r: nat, lo: nat, hi: nat, r': nat, v: nat)
    requires TreesOk(m, own, {}) && UserOk(m, own, r, hi) && IsRoot(own, r') && r' != r && Owned(m, own, r', v)
    ensures !InRange(m, r, lo, hi, PageOf(Pte(m, r', v)))
  {
    hide TreesOk, Pte;
    forall v': nat | lo <= v' < hi ensures !(Valid(Pte(m, r, v')) && PageOf(Pte(m, r, v')) == PageOf(Pte(m, r', v))) {
      SpotRoot(m, own, r', v);
      assert Owned(m, own, r, v');
      SpotRoot(m, own, r, v');
    }
  }

  // ---------------------------------------------------------------- uvmcopy

  // A used page may be overwritten.
  lemma Overwritten(m: Mem, own: Owners, p: nat, b: Page)
    requires TreesOk(m, own, {}) && p in own && own[p] == Used && p in m && |b| == ENTRIES
    ensures TreesOk(m[p := b], own, {})
  {
    var m' := m[p := b];
    forall x | x in own ensures PageOk(m', own, {}, x) {
      assert PageOk(m, own, {}, x);
      if own[x].Root? || own[x].Table? {
        forall j: nat | j < ENTRIES ensures EntryOk(m', own, x, Level(own[x]), j) {
          assert EntryOk(m, own, x, Level(own[x]), j);
        }
      }
    }
  }

  // Overwriting a page that was free before makes no difference to what was expanded.
  lemma ExpandedFrom(m: Mem, m1: Mem, m2: Mem, own: Owners, own2: Owners, r: nat, lo: nat, hi: nat, p: nat)
    requires TreesOk(m, own[p := Used], {}) && p in own && own[p] == Free && p in m && p in m1 && m1 == m[p := m1[p]]
             && 0 !in own
    requires Expanded(m1, m2, own, own2, r, lo, hi)
    ensures Expanded(m, m2, own, own2, r, lo, hi)
  {
    hide TreesOk, Pte, Owned, InRange, TookTable;
    forall r', v | IsRoot(own, r') && 0 <= v < MAXVPN && !(r' == r && lo <= v < hi)
      ensures Pte(m2, r', v) == Pte(m, r', v) {
      assert IsRoot(own[p := Used], r');
      PteKept(m, m1, own[p := Used], r', v, p);
    }
  }

  // The page that r maps at v, and its contents.
  ghost predicate SamePageData(m: Mem, r: nat, v: nat, m0: Mem, r0: nat) {
    && PageOf(Pte(m, r, v)) in m && PageOf(Pte(m0, r0, v)) in m0
    && m[PageOf(Pte(m, r, v))] == m0[PageOf(Pte(m0, r0, v))] && Flags(Pte(m, r, v)) == Flags(Pte(m0, r0, v))
  }

  // One round of uvmcopy.
  method CopyOne(mem: Memory, from: nat, to: nat, v: nat) returns (ok: bool, panic: bool)
    requires mem.Ok() && mem.hole == {} && IsRoot(mem.own, from) && IsRoot(mem.own, to) && v < MAXVPN
             && Owned(mem.m, mem.own, from, v) && Pte(mem.m, to, v) == 0
    modifies mem
    ensures mem.Ok() && mem.hole == {} && !panic
            && Expanded(old(mem.m), mem.m, old(mem.own), mem.own, to, v, if ok then v + 1 else v)
    ensures ok ==> SamePageData(mem.m, to, v, old(mem.m), from)
    ensures !ok ==> |mem.free| <= 1
  {
    hide Chain, TreesOk, Pte, T0, T1, Expanded, Owned, SameMaps, Grew;
    ghost var m0, own0 := mem.m, mem.own;
    ExpandedNone(m0, own0, to, v);
    var t;
    panic, t := Walk(mem, from, v * PGSIZE, false);
    OwnedEntry(m0, own0, from, v);
    if t == 0 { return false, true; }
    var e := mem.m[t][PX(0, v)];
    if !Valid(e) { return false, true; }
    var p := mem.Kalloc();
    if p == 0 { return false, false; }
    var data := mem.m[PageOf(e)];
    Overwritten(m0, mem.own, p, data);
    ChainKept(m0, m0[p := data], mem.own, mem.own, mem.head, mem.free);
    PteKept(m0, m0[p := data], mem.own, to, v, p);
    mem.m := mem.m[p := data];
    assert own0[p := Used][p := Free] == own0;
    FlagsLeafy(e);
    ok := PlaceOne(mem, to, v, p, Flags(e));
    FreshTree(m0, own0, p);
    ExpandedFrom(m0, m0[p := data], mem.m, own0, mem.own, to, v, if ok then v + 1 else v, p);
  }

  lemma FreshTree(m: Mem, own: Owners, p: nat)
    requires TreesOk(m, own, {}) && p in own && own[p] == Free
    ensures TreesOk(m, own[p := Used], {}) && p in m
  {
    TakenOk(m, own, {}, p);
    assert PageOk(m, own, {}, p);
  }

  lemma OwnedEntry(m: Mem, own: Owners, r: nat, v: nat)
    requires TreesOk(m, own, {}) && IsRoot(own, r) && Owned(m, own, r, v)
    ensures var t := T0(m, r, v); t != 0 && t in m && |m[t]| == ENTRIES && m[t][PX(0, v)] == Pte(m, r, v)
    ensures Valid(Pte(m, r, v)) && Leafy(Pte(m, r, v)) && PageOf(Pte(m, r, v)) in m
            && |m[PageOf(Pte(m, r, v))]| == ENTRIES
  {
    hide TreesOk, Pte;
    SpotRoot(m, own, r, v);
    PteAt(m, own, r, v);
    LeafEntry(m, own, T0(m, r, v), PX(0, v));
    HasPage(m, own, PageOf(Pte(m, r, v)));
  }

  lemma FlagsLeafy(e: nat)
    requires Valid(e) && Leafy(e)
    ensures Flags(e) < 1024 && Valid(Flags(e)) && Leafy(Flags(e)) && OrValid(Flags(e)) == Flags(e)
  {
    assert e == e / 1024 * 1024 + e % 1024;
    EntryBits(e / 1024, e % 1024);
  }

  // uvmcopy.  The child gets its own copy of every page, with the same flags; on failure its
  // page map is as before.
  method Uvmcopy(mem: Memory, from: nat, to: nat, sz: nat) returns (res: int, panic: bool)
    requires mem.Ok() && mem.hole == {} && from != to && UserOk(mem.m, mem.own, from, Pages(sz))
             && UserOk(mem.m, mem.own, to, 0)
    modifies mem
    ensures mem.Ok() && mem.hole == {} && !panic && res in {0, -1}
    ensures res == 0 ==> UserOk(mem.m, mem.own, to, Pages(sz))
                         && Expanded(old(mem.m), mem.m, old(mem.own), mem.own, to, 0, Pages(sz))
    ensures res == 0 ==> forall v: nat :: v < Pages(sz) ==> SamePageData(mem.m, to, v, old(mem.m), from)
    ensures res == -1 ==> UserOk(mem.m, mem.own, to, 0) && SameMaps(old(mem.m), mem.m, old(mem.own))
                          && Grew(old(mem.m), mem.m, old(mem.own), mem.own, to)
    ensures res == -1 ==> |mem.free| <= Pages(sz)
    ensures Within(old(mem.own), mem.own, to) && SpecialKept(old(mem.m), mem.m, to)
    ensures UserOk(mem.m, mem.own, from, Pages(sz))
  {
    hide Chain, TreesOk, Pte, T0, T1, Expanded, Owned, SameMaps, Grew, SamePageData, UserOk, Cleared, Freed, DataKept,
        Within;
    ghost var m0, own0 := mem.m, mem.own;
    panic := false;
    IsUser(m0, own0, to, 0);
    IsUser(m0, own0, from, Pages(sz));
    ExpandedNone(m0, own0, to, 0);
    for v := 0 to Pages(sz)
      invariant mem.Ok() && mem.hole == {} && !panic && IsRoot(mem.own, to)
                && Expanded(m0, mem.m, own0, mem.own, to, 0, v)
      invariant forall v': nat :: v' < v ==> SamePageData(mem.m, to, v', m0, from)
    {
      ghost var m1, own1 := mem.m, mem.own;
      StillThere(m0, m1, own0, own1, from, to, v, Pages(sz));
      var ok;
      ok, panic := CopyOne(mem, from, to, v);
      ghost var w := if ok then v + 1 else v;
      ExpandedMore(m0, m1, mem.m, own0, own1, mem.own, to, 0, v, w);
      RootStays(m0, mem.m, own0, mem.own, to, 0, w);
      CopiesStay(m0, m1, mem.m, own0, own1, mem.own, from, to, v, w);
      if !ok {
        ghost var m2, own2 := mem.m, mem.own;
        panic := UnmapFree(mem, to, 0, v);
        NothingBelow(m0, own0, to, v);
        Undone(m0, m2, mem.m, own0, own2, mem.own, to, 0, v);
        UserStays(m0, mem.m, own0, mem.own, to, 0);
        GrewWithin(m0, mem.m, own0, mem.own, to);
        GrewApart(m0, mem.m, own0, mem.own, to);
        OtherSpaces(m0, mem.m, own0, mem.own, to, from, Pages(sz));
        return -1, panic;
      }
    }
    UserGrows(m0, mem.m, own0, mem.own, to, 0, Pages(sz));
    ExpandedWithin(m0, mem.m, own0, mem.own, to, 0, Pages(sz));
    ExpandedApart(m0, mem.m, own0, mem.own, to, 0, Pages(sz));
    OtherSpaces(m0, mem.m, own0, mem.own, to, from, Pages(sz));
    res := 0;
  }

  lemma NothingBelow(m: Mem, own: Owners, r: nat, n: nat)
    requires UserOk(m, own, r, 0) && n <= TRAPFRAME
    ensures forall v: nat :: 0 <= v < n ==> Pte(m, r, v) == 0
  {
    hide Pte;
  }

  // Page v of the parent is where it was, and of the child still unmapped.
  lemma StillThere(m: Mem, m': Mem, own: Owners, own': Owners, from: nat, to: nat, v: nat, n: nat)
    requires TreesOk(m, own, {}) && TreesOk(m', own', {}) && from != to && UserOk(m, own, from, n)
             && UserOk(m, own, to, 0) && v < n && Expanded(m, m', own, own', to, 0, v)
    ensures IsRoot(own', from) && Owned(m', own', from, v) && Pte(m', to, v) == 0 && Pte(m', from, v) == Pte(m, from, v)
    ensures SamePageData(m', from, v, m, from)
  {
    hide TreesOk, Pte, Owned;
    assert Owned(m, own, from, v);
    OwnedIs(m, own, from, v);
    OwnedKept(m, m', own, own', from, v);
    HasPage(m, own, PageOf(Pte(m, from, v)));
  }

  // The copies made so far stay as they are.
  lemma CopiesStay(m0: Mem, m1: Mem, m2: Mem, own0: Owners, own1: Owners, own2: Owners, from: nat, to: nat, v: nat,
                   w: nat)
    requires IsRoot(own1, to) && v <= w <= v + 1 <= MAXVPN && Expanded(m0, m1, own0, own1, to, 0, v)
             && Expanded(m1, m2, own1, own2, to, v, w)
    requires forall v': nat :: v' < v ==> SamePageData(m1, to, v', m0, from)
    requires w == v + 1 ==> SamePageData(m2, to, v, m1, from) && SamePageData(m1, from, v, m0, from)
    ensures forall v': nat :: v' < w ==> SamePageData(m2, to, v', m0, from)
  {
    hide Pte, InRange, TookTable;
    forall v': nat | v' < w ensures SamePageData(m2, to, v', m0, from) {
      if v' < v {
        assert SamePageData(m1, to, v', m0, from) && Pte(m2, to, v') == Pte(m1, to, v');
        assert Owned(m1, own1, to, v');
      }
    }
  }
}
