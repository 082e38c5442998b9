/** The life of a page table (proc_pagetable and proc_freepagetable of kernel/proc.c): whatever a
    process did with its memory, freeing its page table brings back every page. */
module VmLife {
  import opened VmPages
  import opened VmTables
  import opened VmSpace
  import opened VmFree
  import opened VmProc
  import opened VmHardware

  // ---------------------------------------------------------------- a new root

  lemma RootMade(m: Mem, own: Owners, p: nat)
    requires TreesOk(m, own, {}) && p in own && own[p] == Free && p in m && 0 !in own
    ensures TreesOk(m[p := ZeroPage()], own[p := Root], {})
    ensures var m' := m[p := ZeroPage()]; (forall v: nat :: Pte(m', p, v) == 0) && SameMaps(m, m', own)
  {
    ZeroedOk(m, own, p);
    var m', own1, own' := m[p := ZeroPage()], own[p := Used], own[p := Root];
    forall x | x in own' ensures PageOk(m', own', {}, x) {
      assert PageOk(m', own1, {}, x);
      if own'[x].Root? || own'[x].Table? {
        forall j: nat | j < ENTRIES ensures EntryOk(m', own', x, Level(own'[x]), j) {
          if x != p { assert EntryOk(m', own1, x, Level(own1[x]), j); }
        }
      }
    }
  }

  // uvmcreate
  method Uvmcreate(mem: Memory) returns (r: nat)
    requires mem.Ok() && mem.hole == {}
    modifies mem
    ensures mem.Ok() && mem.hole == {}
    ensures r == 0 ==> mem.own == old(mem.own) && mem.m == old(mem.m)
    ensures if r == 0 then |old(mem.free)| == 0 else |mem.free| + 1 == |old(mem.free)|
    ensures r != 0 ==> r in old(mem.own) && old(mem.own)[r] == Free && mem.own == old(mem.own)[r := Root]
                       && IsRoot(mem.own, r)
    ensures r != 0 ==> (forall v: nat :: Pte(mem.m, r, v) == 0) && SameMaps(old(mem.m), mem.m, old(mem.own))
    ensures r != 0 ==> mem.m == old(mem.m)[r := ZeroPage()] && r in old(mem.m)
  {
    hide Chain, TreesOk, Pte;
    ghost var m0, own0 := mem.m, mem.own;
    r := mem.Kalloc();
    if r != 0 {
      RootMade(m0, own0, r);
      assert mem.own[r := Root] == own0[r := Root];
      ChainKept(mem.m, mem.m[r := ZeroPage()], mem.own, mem.own[r := Root], mem.head, mem.free);
      mem.m := mem.m[r := ZeroPage()];
      mem.own := mem.own[r := Root];
    }
  }

  // ---------------------------------------------------------------- proc_pagetable

  const TRAMPOLINE_FLAGS: nat := PTE_V + PTE_R + PTE_X
  const TRAPFRAME_FLAGS: nat := PTE_V + PTE_R + PTE_W

  // The page table of a process with n user pages.  The trampoline is kernel text, outside the
  // pages managed here; the trap frame is a page of the process, not of its page table.
  ghost predicate ProcOk(m: Mem, own: Owners, r: nat, n: nat, tramp: nat, tf: nat) {
    && UserOk(m, own, r, n) && tramp !in own && tf in own && own[tf] == Used
    && Pte(m, r, TRAMPOLINE) == Entry(tramp, TRAMPOLINE_FLAGS) && Pte(m, r, TRAPFRAME) == Entry(tf, TRAPFRAME_FLAGS)
  }

  // Only pages that were free belong to r.
  ghost predicate Built(own: Owners, own': Owners, r: nat) {
    own'.Keys == own.Keys && forall p :: p in own ==>
                                           if own[p] == Free then own'[p] == Free
                                           || RootOf(own', p) == r else own'[p] == own[p] && RootOf(own', p) != r
  }

  lemma BuiltReturned(own: Owners, own1: Owners, own2: Owners, r: nat)
    requires Built(own, own1, r) && FreedAll(own1, own2, r) && r != 0
    ensures own2 == own
  {
    AllReturned(own, own1, own2, r);
  }

  lemma BuiltRoot(m: Mem, own: Owners, r: nat)
    requires TreesOk(m, own, {}) && r in own && own[r] == Free && 0 !in own
    ensures Built(own, own[r := Root], r)
  {
    var own' := own[r := Root];
    forall p | p in own ensures if own[p] == Free then own'[p] == Free
        || RootOf(own', p) == r else own'[p] == own[p] && RootOf(own', p) != r {
      if own[p] != Free { NotMine(m, own, own', r, p); }
    }
  }

  // A page in use belongs to a table whose root is in use.
  lemma NotMine(m: Mem, own: Owners, own': Owners, r: nat, p: nat)
    requires TreesOk(m, own, {}) && p in own && own[p] != Free && r in own && own[r] == Free && 0 !in own
    requires own'.Keys == own.Keys && forall q :: q in own && own[q] != Free ==> own'[q] == own[q]
    ensures RootOf(own', p) != r
  {
    assert PageOk(m, own, {}, p);
    if own[p].Table? || own[p].User? {
      assert PageOk(m, own, {}, own[p].parent);
      if own[own[p].parent].Table? { assert PageOk(m, own, {}, own[own[p].parent].parent); }
    }
  }

  // Growth within r of what was built stays built.
  lemma BuiltMore(m: Mem, own: Owners, own1: Owners, own2: Owners, r: nat)
    requires TreesOk(m, own, {}) && Built(own, own1, r) && Within(own1, own2, r) && r in own && own[r] == Free
             && 0 !in own
    ensures Built(own, own2, r)
  {
    hide TreesOk;
    forall p | p in own && own[p] != Free ensures own2[p] == own[p] { }
    forall p | p in own && own[p] != Free ensures RootOf(own2, p) != r { NotMine(m, own, own2, r, p); }
    forall p | p in own && own[p] == Free ensures own2[p] == Free || RootOf(own2, p) == r { }
  }

  // Every address space of before has its translations and its data.
  ghost predicate Calm(own: Owners, m: Mem, m': Mem) {
    && m'.Keys == m.Keys
    && (forall r, v :: IsRoot(own, r) && 0 <= v < MAXVPN ==> Pte(m', r, v) == Pte(m, r, v))
    && (forall p :: p in own && IsData(own[p]) && p in m ==> m'[p] == m[p])
  }

  lemma CalmTwice(own: Owners, m: Mem, m1: Mem, m2: Mem)
    requires Calm(own, m, m1) && Calm(own, m1, m2)
    ensures Calm(own, m, m2)
  {
    hide Pte;
    forall r, v | IsRoot(own, r) && 0 <= v < MAXVPN ensures Pte(m2, r, v) == Pte(m, r, v) {
      assert Pte(m1, r, v) == Pte(m, r, v);
    }
  }

  // Steps on a tree that was not there before.
  lemma CalmStep(own0: Owners, own: Owners, own': Owners, m: Mem, m': Mem, r: nat)
    requires Built(own0, own, r) && r in own0 && own0[r] == Free && OthersKept(m, m', own, own', r)
    requires forall p :: p in own && own[p] != Free && RootOf(own, p) != r ==> p in own' && own'[p] == own[p]
    ensures Calm(own0, m, m')
  {
    hide Pte;
  }

  lemma MappedCalm(own0: Owners, own: Owners, own': Owners, m: Mem, m': Mem, r: nat, v: nat, e: nat)
    requires Built(own0, own, r) && r in own0 && own0[r] == Free && Grew(m, m', own, own', r)
             && (OneMap(m, m', own, r, v, e) || SameMaps(m, m', own))
    ensures Calm(own0, m, m')
  {
    hide Pte;
    CalmStep(own0, own, own', m, m', r);
  }

  lemma CreatedCalm(own0: Owners, m: Mem, m': Mem, r: nat)
    requires r in own0 && own0[r] == Free && r in m && m' == m[r := ZeroPage()] && SameMaps(m, m', own0)
    ensures Calm(own0, m, m')
  {
    hide Pte;
  }

  lemma CalmNothing(own: Owners, m: Mem)
    ensures Calm(own, m, m)
  {
  }

  lemma FreedCalm(own0: Owners, own: Owners, own': Owners, m: Mem, m': Mem, r: nat)
    requires Built(own0, own, r) && r in own0 && own0[r] == Free && OthersKept(m, m', own, own', r)
             && FreedAll(own, own', r)
    ensures Calm(own0, m, m')
  {
    hide Pte;
    CalmStep(own0, own, own', m, m', r);
  }

  // Mapping or unmapping one of the two top pages.
  lemma TopMapped(m: Mem, m': Mem, own: Owners, own': Owners, r: nat, n: nat, v: nat, e: nat)
    requires TreesOk(m, own, {}) && TreesOk(m', own', {}) && UserOk(m, own, r, n) && v in {TRAPFRAME, TRAMPOLINE}
             && OneMap(m, m', own, r, v, e)
    requires own'.Keys == own.Keys && forall p :: p in own && own[p] != Free ==> own'[p] == own[p]
    ensures UserOk(m', own', r, n) && forall v' :: v' in {TRAPFRAME, TRAMPOLINE} ==>
                                                     Pte(m', r, v') == if v' == v then e else Pte(m, r, v')
  {
    hide TreesOk, Pte, Owned;
    forall v': nat | v' < n ensures Owned(m', own', r, v') {
      OwnedIs(m, own, r, v');
      OwnedKept(m, m', own, own', r, v');
    }
    assert TRAPFRAME != TRAMPOLINE;
  }

  lemma GrewBuilt(m0: Mem, m: Mem, m': Mem, own0: Owners, own: Owners, own': Owners, r: nat)
    requires TreesOk(m0, own0, {}) && TreesOk(m, own, {}) && Built(own0, own, r) && IsRoot(own, r)
             && Grew(m, m', own, own', r) && r in own0 && own0[r] == Free
    ensures Built(own0, own', r) && IsRoot(own', r)
  {
    hide TreesOk;
    forall p | p in own ensures if own[p] == Free || RootOf(own, p) == r then own'[p] == Free
        || RootOf(own', p) == r else own'[p] == own[p] {
      if own[p] != Free { RootKept(m, own, own', p); }
    }
    BuiltMore(m0, own0, own, own', r);
  }

  // A new root leads nowhere, and the two top pages are on one way.
  lemma TopWay(m: Mem, r: nat)
    ensures r in m && m[r] == ZeroPage() ==> Missing(m, r, TRAMPOLINE) == 2
    ensures Missing(m, r, TRAPFRAME) == Missing(m, r, TRAMPOLINE)
  {
    assert PX(2, TRAPFRAME) == PX(2, TRAMPOLINE) && PX(1, TRAPFRAME) == PX(1, TRAMPOLINE);
  }

  // proc_pagetable: a page table with no user memory.  It takes three pages; with fewer, every page is
  // back.  The trap frame needs no table page of its own, so its mappages cannot fail.
  method ProcPagetable(mem: Memory, tramp: nat, tf: nat) returns (r: nat)
    requires mem.Ok() && mem.hole == {} && tramp !in mem.own && tf in mem.own && mem.own[tf] == Used
    modifies mem
    ensures mem.Ok() && mem.hole == {}
    ensures Calm(old(mem.own), old(mem.m), mem.m)
    ensures r == 0 <==> |old(mem.free)| < 3
    ensures r == 0 ==> mem.own == old(mem.own)
    ensures r != 0 ==> |mem.free| + 3 == |old(mem.free)|
    ensures r != 0 ==> ProcOk(mem.m, mem.own, r, 0, tramp, tf) && Built(old(mem.own), mem.own, r) && r in old(mem.own)
                       && old(mem.own)[r] == Free
  {
    hide Chain, TreesOk, Pte, T0, OneMap, SameMaps, Grew, Built, FreedAll, OthersKept, UserOk, Owned, Calm, Missing;
    ghost var m0, own0 := mem.m, mem.own;
    r := Uvmcreate(mem);
    if r == 0 {
      CalmNothing(own0, m0);
      return;
    }
    CreatedCalm(own0, m0, mem.m, r);
    BuiltRoot(m0, own0, r);
    NewUser(mem.m, mem.own, r);
    ghost var m1, own1 := mem.m, mem.own;
    TopWay(m1, r);
    var res := MapOne(mem, r, TRAMPOLINE, tramp, PTE_R + PTE_X);
    MappedCalm(own0, own1, mem.own, m1, mem.m, r, TRAMPOLINE, Entry(tramp, OrValid(PTE_R + PTE_X)));
    CalmTwice(own0, m0, m1, mem.m);
    GrewBuilt(m0, m1, mem.m, own0, own1, mem.own, r);
    GrewHas(m1, mem.m, own1, mem.own, r, tf);
    if res != MapDone {
      SameUser(m1, mem.m, own1, mem.own, r, 0);
      ghost var m3, own3 := mem.m, mem.own;
      var panic := Uvmfree(mem, r, 0);
      FreedCalm(own0, own3, mem.own, m3, mem.m, r);
      CalmTwice(own0, m0, m3, mem.m);
      BuiltReturned(own0, own3, mem.own, r);
      return 0;
    }
    TopMapped(m1, mem.m, own1, mem.own, r, 0, TRAMPOLINE, Entry(tramp, OrValid(PTE_R + PTE_X)));
    ghost var m2, own2 := mem.m, mem.own;
    TopWay(m2, r);
    res := MapOne(mem, r, TRAPFRAME, tf, PTE_R + PTE_W);
    MappedCalm(own0, own2, mem.own, m2, mem.m, r, TRAPFRAME, Entry(tf, OrValid(PTE_R + PTE_W)));
    CalmTwice(own0, m0, m2, mem.m);
    GrewBuilt(m0, m2, mem.m, own0, own2, mem.own, r);
    GrewHas(m2, mem.m, own2, mem.own, r, tf);
    assert res == MapDone;
    TopMapped(m2, mem.m, own2, mem.own, r, 0, TRAPFRAME, Entry(tf, OrValid(PTE_R + PTE_W)));
  }

  lemma NewUser(m: Mem, own: Owners, r: nat)
    requires IsRoot(own, r) && forall v: nat :: Pte(m, r, v) == 0
    ensures UserOk(m, own, r, 0)
  {
    hide Pte;
  }

  lemma GrewHas(m: Mem, m': Mem, own: Owners, own': Owners, r: nat, tf: nat)
    requires Grew(m, m', own, own', r) && tf in own && own[tf] == Used
    ensures own'.Keys == own.Keys && own'[tf] == Used && forall p :: p in own && own[p] != Free ==> own'[p] == own[p]
  {
  }

  lemma SameUser(m: Mem, m': Mem, own: Owners, own': Owners, r: nat, n: nat)
    requires TreesOk(m, own, {}) && TreesOk(m', own', {}) && UserOk(m, own, r, n) && SameMaps(m, m', own)
             && Grew(m, m', own, own', r)
    ensures UserOk(m', own', r, n) && SpecialKept(m, m', r)
  {
    hide TreesOk, Pte, Owned;
    UserStays(m, m', own, own', r, n);
  }

  // A page that is not a user page is not owned by the mapping.
  lemma NotOwned(m: Mem, own: Owners, r: nat, v: nat, p: nat, flags: nat)
    requires flags < 1024 && Valid(flags) && Pte(m, r, v) == Entry(p, flags) && (p !in own || own[p] == Used)
    ensures !Owned(m, own, r, v) && Valid(Pte(m, r, v))
  {
    hide Pte;
  }

  // ---------------------------------------------------------------- proc_freepagetable

  method ProcFreePagetable(mem: Memory, r: nat, sz: nat, ghost tramp: nat, ghost tf: nat) returns (panic: bool)
    requires mem.Ok() && mem.hole == {} && ProcOk(mem.m, mem.own, r, Pages(sz), tramp, tf)
    modifies mem
    ensures mem.Ok() && mem.hole == {} && !panic && FreedAll(old(mem.own), mem.own, r)
    ensures OthersKept(old(mem.m), mem.m, old(mem.own), mem.own, r)
  {
    hide Chain, TreesOk, Pte, OneMap, FreedAll, UserOk, Owned, OthersKept;
    ghost var m0, own0 := mem.m, mem.own;
    IsUser(m0, own0, r, Pages(sz));
    NotOwned(m0, own0, r, TRAMPOLINE, tramp, TRAMPOLINE_FLAGS);
    panic := UnmapOne(mem, r, TRAMPOLINE, false);
    TopMapped(m0, mem.m, own0, mem.own, r, Pages(sz), TRAMPOLINE, 0);
    ghost var m1 := mem.m;
    NotOwned(m1, own0, r, TRAPFRAME, tf, TRAPFRAME_FLAGS);
    panic := UnmapOne(mem, r, TRAPFRAME, false);
    TopMapped(m1, mem.m, own0, mem.own, r, Pages(sz), TRAPFRAME, 0);
    ghost var m2 := mem.m;
    panic := Uvmfree(mem, r, sz);
    OthersSame(m0, m1, m2, mem.m, own0, mem.own, r);
  }

  lemma OthersSame(m0: Mem, m1: Mem, m2: Mem, m3: Mem, own: Owners, own': Owners, r: nat)
    requires OneMap(m0, m1, own, r, TRAMPOLINE, 0) && OneMap(m1, m2, own, r, TRAPFRAME, 0)
             && OthersKept(m2, m3, own, own', r)
    requires m1.Keys == m0.Keys && m2.Keys == m0.Keys
             && forall p :: p in own && IsData(own[p]) && p in m0 ==> m1[p] == m0[p] && m2[p] == m0[p]
    ensures OthersKept(m0, m3, own, own', r)
  {
    hide Pte;
    forall r', v | IsRoot(own, r') && r' != r && 0 <= v < MAXVPN ensures Pte(m3, r', v) == Pte(m0, r', v) {
      assert Pte(m1, r', v) == Pte(m0, r', v);
      assert Pte(m2, r', v) == Pte(m1, r', v);
    }
  }

  // ---------------------------------------------------------------- a whole life

  // The memory of fork: a page table for the child and a copy of the parent's pages; if memory
  // runs out, everything is given back.
  method Fork(mem: Memory, from: nat, sz: nat, tramp: nat, tf: nat) returns (to: nat)
    requires mem.Ok() && mem.hole == {} && UserOk(mem.m, mem.own, from, Pages(sz)) && tramp !in mem.own
             && tf in mem.own && mem.own[tf] == Used
    modifies mem
    ensures mem.Ok() && mem.hole == {} && Calm(old(mem.own), old(mem.m), mem.m)
    ensures to == 0 ==> mem.own == old(mem.own)
    ensures to != 0 ==> ProcOk(mem.m, mem.own, to, Pages(sz), tramp, tf) && Built(old(mem.own), mem.own, to)
                        && to in old(mem.own) && old(mem.own)[to] == Free
    ensures to != 0 ==> forall v: nat :: v < Pages(sz) ==> SamePageData(mem.m, to, v, old(mem.m), from)
  {
    hide TreesOk, Pte, Owned, UserOk, Built, Within, Chain, FreedAll, Entry, Calm, SamePageData, Expanded, SameMaps,
        Grew, OthersKept;
    ghost var m0, own0 := mem.m, mem.own;
    IsUser(m0, own0, from, Pages(sz));
    to := ProcPagetable(mem, tramp, tf);
    if to == 0 { return; }
    ghost var m1, own1 := mem.m, mem.own;
    ParentStays(m0, m1, own0, own1, from, to, Pages(sz));
    var res, panic := Uvmcopy(mem, from, to, sz);
    BuiltMore(m0, own0, own1, mem.own, to);
    TfStays(own0, own1, mem.own, to, tf);
    ghost var m2, own2 := mem.m, mem.own;
    if res < 0 {
      MappedCalm(own0, own1, own2, m1, m2, to, 0, 0);
      CalmTwice(own0, m0, m1, m2);
      panic := ProcFreePagetable(mem, to, 0, tramp, tf);
      FreedCalm(own0, own2, mem.own, m2, mem.m, to);
      CalmTwice(own0, m0, m2, mem.m);
      BuiltReturned(own0, own2, mem.own, to);
      return 0;
    }
    CopiedCalm(own0, own1, own2, m1, m2, to, Pages(sz));
    CalmTwice(own0, m0, m1, m2);
    forall v: nat | v < Pages(sz) ensures SamePageData(m2, to, v, m0, from) {
      SameSource(own0, m0, m1, m2, from, to, Pages(sz), v);
    }
  }

  // A child is forked and freed again: every page has its first owner, and every other address
  // space its translations and its data.
  method ForkAndFree(mem: Memory, from: nat, sz: nat, tramp: nat, tf: nat) returns (before: nat, after: nat)
    requires mem.Ok() && mem.hole == {} && UserOk(mem.m, mem.own, from, Pages(sz)) && tramp !in mem.own
             && tf in mem.own && mem.own[tf] == Used
    modifies mem
    ensures mem.Ok() && mem.own == old(mem.own) && Calm(old(mem.own), old(mem.m), mem.m)
            && before == after == |old(mem.free)| * PGSIZE
  {
    hide TreesOk, Pte, Owned, UserOk, Built, Chain, FreedAll, Entry, Calm, SamePageData, OthersKept;
    ghost var m0, own0, head0, free0 := mem.m, mem.own, mem.head, mem.free;
    before := mem.CollectFree();
    var to := Fork(mem, from, sz, tramp, tf);
    if to != 0 {
      ghost var m1, own1 := mem.m, mem.own;
      var panic := ProcFreePagetable(mem, to, sz, tramp, tf);
      FreedCalm(own0, own1, mem.own, m1, mem.m, to);
      CalmTwice(own0, m0, m1, mem.m);
      BuiltReturned(own0, own1, mem.own, to);
    }
    after := mem.CollectFree();
    FreeCount(m0, own0, head0, free0);
    FreeCount(mem.m, mem.own, mem.head, mem.free);
  }

  lemma ParentStays(m: Mem, m': Mem, own: Owners, own': Owners, from: nat, to: nat, n: nat)
    requires TreesOk(m, own, {}) && TreesOk(m', own', {}) && UserOk(m, own, from, n) && Calm(own, m, m')
             && Built(own, own', to) && to in own && own[to] == Free
    ensures UserOk(m', own', from, n) && from != to
  {
    hide TreesOk, Pte;
    OtherSpaces(m, m', own, own', to, from, n);
  }

  lemma CopiedCalm(own0: Owners, own: Owners, own': Owners, m: Mem, m': Mem, r: nat, n: nat)
    requires Built(own0, own, r) && r in own0 && own0[r] == Free && Expanded(m, m', own, own', r, 0, n)
    ensures Calm(own0, m, m')
  {
    hide Pte, InRange, TookTable;
    CalmStep(own0, own, own', m, m', r);
  }

  lemma SameSource(own: Owners, m0: Mem, m1: Mem, m2: Mem, from: nat, to: nat, n: nat, v: nat)
    requires Calm(own, m0, m1) && UserOk(m0, own, from, n) && v < n && SamePageData(m2, to, v, m1, from)
    ensures SamePageData(m2, to, v, m0, from)
  {
    hide Pte;
    assert Owned(m0, own, from, v);
    assert Pte(m1, from, v) == Pte(m0, from, v);
  }

  // ---------------------------------------------------------------- what the user can reach

  // A user access to va goes through, on the machine.
  predicate UserMay(m: Mem, r: nat, va: nat, write: bool) {
    match Translate(m, r, va, 2)
    case Fault => false
    case Page(_, e) => U(e) && if write then W(e) else R(e)
  }

  lemma HeapBits(e: nat)
    requires Flags(e) == HEAP_FLAGS
    ensures V(e) && R(e) && W(e) && U(e)
  {
    var q := e / 1024;
    assert e == 1024 * q + 23;
    Odd(e, 512 * q + 11);
    Odd(e / 2, 256 * q + 5);
    Odd(64 * q + 1, 32 * q);
    Quarters(e, q);
    hide Flags;
  }

  lemma Odd(a: nat, b: nat)
    requires a == 2 * b + 1
    ensures a % 2 == 1 && a / 2 == b
  {
  }

  lemma Quarters(e: nat, q: nat)
    requires e == 1024 * q + 23
    ensures e / 4 == 256 * q + 5 && e / 4 % 2 == 1 && e / 16 == 64 * q + 1
  {
    assert 256 * q + 5 == 2 * (128 * q + 2) + 1;
    Odd(256 * q + 5, 128 * q + 2);
  }

  lemma KernelBits(e: nat)
    requires Flags(e) == TRAMPOLINE_FLAGS || Flags(e) == TRAPFRAME_FLAGS
    ensures !U(e)
  {
    var q, f := e / 1024, e % 1024;
    assert e == 1024 * q + f && f / 16 == 0;
    assert e / 16 == 64 * q;
  }

  // The user can read and write exactly the pages of the process: not the trap frame, not the
  // trampoline, and nothing above its size.
  lemma UserReach(m: Mem, own: Owners, r: nat, n: nat, tramp: nat, tf: nat, va: nat, write: bool)
    requires TreesOk(m, own, {}) && ProcOk(m, own, r, n, tramp, tf) && AllHeap(m, r, 0, n)
    requires (forall p :: p in own ==> p < PPN_LIMIT) && va < MAXVPN * PGSIZE
    ensures UserMay(m, r, va, write) <==> va / PGSIZE < n
  {
    hide TreesOk, Pte, Translate, V, R, W, X, U, Ppn, Entry, Owned;
    HardwareAgrees(m, own, r, va);
    NoEntry();
    var v := va / PGSIZE;
    var e := Pte(m, r, v);
    assert v < MAXVPN;
    if v < n { HeapBits(e); } else if v >= TRAPFRAME { KernelBits(e); }
  }

  ghost predicate Reach(m: Mem, r: nat, size: nat) {
    forall va: nat, write: bool :: va < MAXVPN * PGSIZE ==> (UserMay(m, r, va, write) <==> va / PGSIZE < Pages(size))
  }

  lemma Reaches(m: Mem, own: Owners, r: nat, size: nat, tramp: nat, tf: nat)
    requires TreesOk(m, own, {}) && ProcOk(m, own, r, Pages(size), tramp, tf) && AllHeap(m, r, 0, Pages(size))
    requires forall p :: p in own ==> p < PPN_LIMIT
    ensures Reach(m, r, size)
  {
    hide TreesOk, ProcOk, AllHeap, UserMay, Pages;
    forall va: nat, write: bool | va < MAXVPN * PGSIZE
      ensures UserMay(m, r, va, write) <==> va / PGSIZE < Pages(size) {
      UserReach(m, own, r, Pages(size), tramp, tf, va, write);
    }
  }

  // ---------------------------------------------------------------- growing and shrinking

  // What one call of growproc does to the pages of r: those below both sizes are kept.
  ghost predicate Resized(m: Mem, m': Mem, r: nat, size: nat, n: int, size': nat) {
    (size' == size || size' == size + n) && PagesKept(m, m', r, Fewer(Pages(size), Pages(size')))
  }

  // A process with page table r made these calls of growproc: the memory and the size before each
  // and after the last.  All its pages can be read and written throughout.
  ghost predicate Lived(r: nat, steps: seq<int>, mems: seq<Mem>, sizes: seq<nat>) {
    && |mems| == |sizes| == |steps| + 1 && sizes[0] == 0
    && (forall k :: 0 <= k < |steps| ==> Resized(mems[k], mems[k + 1], r, sizes[k], steps[k], sizes[k + 1]))
    && (forall k :: 0 <= k <= |steps| ==> AllHeap(mems[k], r, 0, Pages(sizes[k])))
  }

  lemma LivedNone(r: nat, m: Mem)
    ensures Lived(r, [], [m], [0])
  {
  }

  lemma LivedMore(r: nat, steps: seq<int>, mems: seq<Mem>, sizes: seq<nat>, n: int, m: Mem, size: nat)
    requires Lived(r, steps, mems, sizes)
    requires Resized(mems[|steps|], m, r, sizes[|steps|], n, size) && AllHeap(m, r, 0, Pages(size))
    ensures Lived(r, steps + [n], mems + [m], sizes + [size])
  {
    hide Resized, AllHeap;
    var steps', mems', sizes' := steps + [n], mems + [m], sizes + [size];
    forall k | 0 <= k < |steps'| ensures Resized(mems'[k], mems'[k + 1], r, sizes'[k], steps'[k], sizes'[k + 1]) {
      if k < |steps| { assert Resized(mems[k], mems[k + 1], r, sizes[k], steps[k], sizes[k + 1]); }
    }
  }

  // A page that the process has all the time from one call to a later one keeps its place and its words.
  lemma {:induction false} PageSurvives(r: nat, steps: seq<int>, mems: seq<Mem>, sizes: seq<nat>, i: nat, j: nat,
                                        v: nat)
    requires Lived(r, steps, mems, sizes) && i < j <= |steps| && forall k :: i <= k <= j ==> v < Pages(sizes[k])
    ensures PageKept(mems[i], mems[j], r, v) && Flags(Pte(mems[j], r, v)) == HEAP_FLAGS
  {
    hide Pte, Pages;
    assert Resized(mems[j - 1], mems[j - 1 + 1], r, sizes[j - 1], steps[j - 1], sizes[j - 1 + 1]);
    assert AllHeap(mems[j], r, 0, Pages(sizes[j]));
    assert v < Pages(sizes[j - 1]) && v < Pages(sizes[j]);
    assert PageKept(mems[j - 1], mems[j], r, v);
    if i < j - 1 { PageSurvives(r, steps, mems, sizes, i, j - 1, v); }
  }

  // All pages can be read and written after a call as well.
  lemma HeapStays(m: Mem, m': Mem, r: nat, size: nat, size': nat)
    requires AllHeap(m, r, 0, Pages(size)) && PagesKept(m, m', r, Fewer(Pages(size), Pages(size')))
    requires Pages(size) < Pages(size') ==> AllHeap(m', r, Pages(size), Pages(size'))
    ensures AllHeap(m', r, 0, Pages(size'))
  {
    hide Pte, Pages;
    forall v: nat | v < Pages(size') ensures Flags(Pte(m', r, v)) == HEAP_FLAGS {
      if v < Pages(size) { assert PageKept(m, m', r, v); }
    }
  }

  // A process is given a page table, grows and shrinks its memory any number of times, and is
  // freed: every page has its first owner again, and the amount of free memory is the same.  While
  // it lived, its pages kept their words and could be read and written.
  method Lifetime(mem: Memory, tramp: nat, tf: nat, steps: seq<int>)
    returns (before: nat, after: nat, r: nat, ghost mems: seq<Mem>, ghost sizes: seq<nat>)
    requires mem.Ok() && mem.hole == {} && tramp !in mem.own && tf in mem.own && mem.own[tf] == Used
    requires forall k :: 0 <= k < |steps| ==> -0x8000_0000 <= steps[k] < 0x8000_0000
    modifies mem
    ensures mem.Ok() && mem.own == old(mem.own) && before == after == |old(mem.free)| * PGSIZE
    ensures if r == 0 then |old(mem.free)| < 3 else Lived(r, steps, mems, sizes)
    ensures r != 0 && (forall p :: p in old(mem.own) ==> p < PPN_LIMIT) ==>
              |mems| == |sizes| && forall k :: 0 <= k < |mems| ==> Reach(mems[k], r, sizes[k])
  {
    hide TreesOk, Pte, Owned, UserOk, Built, Within, Chain, FreedAll, Entry, Lived, PagesKept, AllHeap, Reach;
    ghost var m0, own0, head0, free0 := mem.m, mem.own, mem.head, mem.free;
    before := mem.CollectFree();
    r := ProcPagetable(mem, tramp, tf);
    mems, sizes := [mem.m], [0];
    if r != 0 {
      var size: nat, k := 0, 0;
      LivedNone(r, mem.m);
      assert steps[..0] == [];
      if forall p :: p in own0 ==> p < PPN_LIMIT { Reached(own0, mem.m, mem.own, r, [], 0, mems, sizes, tramp, tf); }
      while k < |steps|
        invariant 0 <= k <= |steps| && mem.Ok() && mem.hole == {} && size < 0x1_0000_0000_0000_0000
                  && Built(own0, mem.own, r)
        invariant ProcOk(mem.m, mem.own, r, Pages(size), tramp, tf)
        invariant Lived(r, steps[..k], mems, sizes) && Now(mems, sizes, k, mem.m, size)
        invariant (forall p :: p in own0 ==> p < PPN_LIMIT) ==>
                    |mems| == |sizes| && forall j :: 0 <= j < |mems| ==> Reach(mems[j], r, sizes[j])
      {
        ghost var m1, own1, size1 := mem.m, mem.own, size;
        if SmallMachine(mem.lo, mem.hi) || steps[k] <= 0 || Pages(size + steps[k]) <= TRAPFRAME {
          var res;
          res, size := Growproc(mem, r, size, steps[k]);
          BuiltMore(m0, own0, own1, mem.own, r);
          TfStays(own0, own1, mem.own, r, tf);
          Bounded(mem.m, mem.own, r, size);
        } else {
          KeptNone(mem.m, mem.own, r, Pages(size));
        }
        OneMore(r, steps, k, mems, sizes, m1, size1, mem.m, size);
        mems, sizes := mems + [mem.m], sizes + [size];
        k := k + 1;
        if forall p :: p in own0 ==> p < PPN_LIMIT {
          Reached(own0, mem.m, mem.own, r, steps[..k], size, mems, sizes, tramp, tf);
        }
      }
      assert steps[..k] == steps;
      ghost var own1 := mem.own;
      var panic := ProcFreePagetable(mem, r, size, tramp, tf);
      BuiltReturned(own0, own1, mem.own, r);
    }
    after := mem.CollectFree();
    FreeCount(m0, own0, head0, free0);
    FreeCount(mem.m, mem.own, mem.head, mem.free);
  }

  lemma Reached(own0: Owners, m: Mem, own: Owners, r: nat, steps: seq<int>, size: nat, mems: seq<Mem>, sizes: seq<nat>,
                tramp: nat, tf: nat)
    requires (forall p :: p in own0 ==> p < PPN_LIMIT) && Built(own0, own, r) && TreesOk(m, own, {})
    requires ProcOk(m, own, r, Pages(size), tramp, tf)
    requires Lived(r, steps, mems, sizes) && mems[|steps|] == m && sizes[|steps|] == size
    ensures |mems| == |sizes| == |steps| + 1 && Reach(mems[|steps|], r, sizes[|steps|])
  {
    hide ProcOk, AllHeap, TreesOk, Reach;
    assert AllHeap(mems[|steps|], r, 0, Pages(sizes[|steps|]));
    Reaches(m, own, r, size, tramp, tf);
  }

  // The last memory and size listed are these.
  ghost predicate Now(mems: seq<Mem>, sizes: seq<nat>, k: nat, m: Mem, size: nat) {
    k < |mems| && k < |sizes| && mems[k] == m && sizes[k] == size
  }

  lemma OneMore(r: nat, steps: seq<int>, k: nat, mems: seq<Mem>, sizes: seq<nat>, m: Mem, size: nat, m': Mem,
                size': nat)
    requires k < |steps| && Lived(r, steps[..k], mems, sizes) && Now(mems, sizes, k, m, size)
    requires Resized(m, m', r, size, steps[k], size')
    requires Pages(size) < Pages(size') ==> AllHeap(m', r, Pages(size), Pages(size'))
    ensures Lived(r, steps[..k + 1], mems + [m'], sizes + [size'])
            && Now(mems + [m'], sizes + [size'], k + 1, m', size')
  {
    assert AllHeap(mems[k], r, 0, Pages(sizes[k]));
    HeapStays(m, m', r, size, size');
    LivedMore(r, steps[..k], mems, sizes, steps[k], m', size');
    assert steps[..k] + [steps[k]] == steps[..k + 1];
  }

  lemma TfStays(own0: Owners, own1: Owners, own2: Owners, r: nat, tf: nat)
    requires tf in own0 && own0[tf] == Used && Built(own0, own1, r) && Within(own1, own2, r)
    ensures own2.Keys == own0.Keys && own2[tf] == Used
  {
  }

  lemma Bounded(m: Mem, own: Owners, r: nat, size: nat)
    requires UserOk(m, own, r, Pages(size))
    ensures size < 0x1_0000_0000_0000_0000
  {
  }
}
