/** Physical pages: the free list of kernel/kalloc.c, and who owns each page.  Pages are named
    by their number (physical address / 4096); a page is 512 words of 64 bits. */
module VmPages {
  const PGSIZE: nat := 4096
  const ENTRIES: nat := 512

  type Page = seq<nat>
  type Mem = map<nat, Page>

  // What a page is used for.  A table page hangs from entry idx of its parent; a user page is
  // mapped by entry idx of the lowest-level table page parent.
  datatype Owner = Free | Used | Root | Table(parent: nat, idx: nat, level: nat) | User(parent: nat, idx: nat)
  type Owners = map<nat, Owner>

  function ZeroPage(): (r: Page)
    ensures |r| == ENTRIES && forall i :: 0 <= i < ENTRIES ==> r[i] == 0
  {
    seq(ENTRIES, _ => 0)
  }

  function SetWord(b: Page, i: nat, w: nat): (r: Page)
    requires i < |b|
    ensures |r| == |b| && r[i] == w && forall j :: 0 <= j < |b| && j != i ==> r[j] == b[j]
  {
    b[i := w]
  }

  // ---------------------------------------------------------------- page-table entries

  const PTE_V: nat := 1
  const PTE_R: nat := 2
  const PTE_W: nat := 4
  const PTE_X: nat := 8
  const PTE_U: nat := 16

  predicate Valid(e: nat) { e % 2 == 1 }

  // Any of the bits R, W and X.
  predicate Leafy(e: nat) { e / 2 % 8 != 0 }

  function PageOf(e: nat): (p: nat) { e / 1024 }

  function Flags(e: nat): (f: nat) { e % 1024 }

  function Entry(p: nat, flags: nat): (e: nat)
    requires flags < 1024
    ensures PageOf(e) == p && Flags(e) == flags && Valid(e) == Valid(flags) && Leafy(e) == Leafy(flags)
  {
    EntryBits(p, flags);
    p * 1024 + flags
  }

  lemma EntryBits(p: nat, flags: nat)
    requires flags < 1024
    ensures (p * 1024 + flags) / 1024 == p && (p * 1024 + flags) % 1024 == flags
    ensures (p * 1024 + flags) % 2 == flags % 2 && (p * 1024 + flags) / 2 % 8 == flags / 2 % 8
  {
    assert (p * 1024 + flags) / 2 == 512 * p + flags / 2;
    EightFold(64 * p, flags / 2);
  }

  lemma EightFold(a: nat, b: nat)
    ensures (8 * a + b) % 8 == b % 8
  {
  }

  // ---------------------------------------------------------------- ownership

  predicate IsTable(own: Owners, p: nat, level: nat) {
    p in own && (if level == 2 then own[p] == Root else level < 2 && own[p].Table? && own[p].level == level)
  }

  // Entry i of table page p: empty, a pointer to the table page that hangs there, or a mapping.
  // MAXVA leaves the upper half of a root page empty.
  predicate EntryOk(m: Mem, own: Owners, p: nat, level: nat, i: nat)
    requires p in m && i < |m[p]|
  {
    var e := m[p][i];
    || e == 0
    || (level > 0 && (level == 2 ==> i < ENTRIES / 2) && e == Entry(PageOf(e), PTE_V) && PageOf(e) in own
        && own[PageOf(e)] == Table(p, i, level - 1))
    || (level == 0 && Valid(e) && Leafy(e))
  }

  // hole are the entries that are being cleared.
  type Holes = set<(nat, nat)>

  ghost predicate EntriesOk(m: Mem, own: Owners, hole: Holes, p: nat, level: nat)
    requires p in m && |m[p]| == ENTRIES
  {
    forall i: nat :: i < ENTRIES && (p, i) !in hole ==> EntryOk(m, own, p, level, i)
  }

  // Where a page hangs.
  predicate HangsOk(m: Mem, own: Owners, p: nat)
    requires p in own
  {
    match own[p]
    case Table(q, i, level) => level < 2 && IsTable(own, q, level + 1) && q in m && i < |m[q]|
        && m[q][i] == Entry(p, PTE_V)
    case User(q, i) => IsTable(own, q, 0) && q in m && i < |m[q]| && Valid(m[q][i]) && Leafy(m[q][i])
        && PageOf(m[q][i]) == p
    case _ => true
  }

  function Level(o: Owner): nat { if o.Table? then o.level else 2 }

  ghost predicate PageOk(m: Mem, own: Owners, hole: Holes, p: nat)
    requires p in own
  {
    p in m && |m[p]| == ENTRIES && HangsOk(m, own, p)
    && (own[p].Root? || own[p].Table? ==> EntriesOk(m, own, hole, p, Level(own[p])))
  }

  ghost predicate TreesOk(m: Mem, own: Owners, hole: Holes) { forall p :: p in own ==> PageOk(m, own, hole, p) }

  // ---------------------------------------------------------------- the free list

  function Addr(free: seq<nat>, k: nat): nat { if k < |free| then free[k] * PGSIZE else 0 }

  predicate LinkOk(m: Mem, own: Owners, free: seq<nat>, k: nat)
    requires k < |free|
  {
    var p := free[k];
    p > 0 && p in own && own[p] == Free && p in m && |m[p]| == ENTRIES && m[p][0] == Addr(free, k + 1)
  }

  // The free pages, chained through their first word.
  ghost predicate Chain(m: Mem, own: Owners, head: nat, free: seq<nat>) {
    && head == Addr(free, 0)
    && (forall k :: 0 <= k < |free| ==> LinkOk(m, own, free, k))
    && (forall j, k :: 0 <= j < k < |free| ==> free[j] != free[k])
    && (forall p :: p in own && own[p] == Free ==> p in free)
  }

  ghost predicate MemOk(lo: nat, hi: nat, m: Mem, own: Owners, head: nat, free: seq<nat>, hole: Holes) {
    && 0 < lo <= hi < 0x1000_0000_0000
    && (forall p :: p in own <==> lo <= p < hi)
    && TreesOk(m, own, hole) && Chain(m, own, head, free)
  }

  // Changing pages that are not free keeps the chain.
  lemma ChainKept(m: Mem, m': Mem, own: Owners, own': Owners, head: nat, free: seq<nat>)
    requires Chain(m, own, head, free) && own'.Keys == own.Keys
    requires forall p :: p in own ==> (own'[p] == Free <==> own[p] == Free)
    requires forall p :: p in own && own[p] == Free && p in m ==> p in m' && m'[p] == m[p]
    ensures Chain(m', own', head, free)
  {
    forall k | 0 <= k < |free| ensures LinkOk(m', own', free, k) { assert LinkOk(m, own, free, k); }
  }

  // No page hangs from p.
  ghost predicate Childless(own: Owners, p: nat) {
    forall q :: q in own && (own[q].Table? || own[q].User?) ==> own[q].parent != p
  }

  // Freeing a page from which nothing hangs, when no table entry outside the holes points to it.
  lemma FreedOk(m: Mem, own: Owners, hole: Holes, p: nat, w: nat)
    requires TreesOk(m, own, hole) && p in own && p in m && |m[p]| == ENTRIES && Childless(own, p)
    requires own[p].Table? ==> (own[p].parent, own[p].idx) in hole
    ensures TreesOk(m[p := SetWord(m[p], 0, w)], own[p := Free], hole)
  {
    var m', own' := m[p := SetWord(m[p], 0, w)], own[p := Free];
    forall q | q in own' ensures PageOk(m', own', hole, q) {
      assert PageOk(m, own, hole, q);
      if q != p && (own[q].Root? || own[q].Table?) {
        forall i: nat | i < ENTRIES && (q, i) !in hole ensures EntryOk(m', own', q, Level(own'[q]), i) {
          assert EntryOk(m, own, q, Level(own[q]), i);
        }
      }
    }
  }

  // A page that no table refers to may be used for anything.
  lemma TakenOk(m: Mem, own: Owners, hole: Holes, p: nat)
    requires TreesOk(m, own, hole) && p in own && own[p] == Free
    ensures TreesOk(m, own[p := Used], hole)
  {
    var own' := own[p := Used];
    forall q | q in own' ensures PageOk(m, own', hole, q) {
      assert PageOk(m, own, hole, q);
      if q != p && (own[q].Root? || own[q].Table?) {
        forall i: nat | i < ENTRIES && (q, i) !in hole ensures EntryOk(m, own', q, Level(own'[q]), i) {
          assert EntryOk(m, own, q, Level(own[q]), i);
        }
      }
    }
  }

  lemma FreeLink(m: Mem, own: Owners, head: nat, free: seq<nat>, p: nat, k: nat)
    requires p > 0 && p in own && own[p] != Free && p in m && |m[p]| == ENTRIES && head == Addr(free, 0) && k <= |free|
    requires k > 0 ==> LinkOk(m, own, free, k - 1)
    ensures LinkOk(m[p := SetWord(m[p], 0, head)], own[p := Free], [p] + free, k) && (k > 0 ==> ([p] + free)[k] != p)
  {
    assert Addr([p] + free, k + 1) == Addr(free, k);
  }

  lemma FreeChain(m: Mem, own: Owners, head: nat, free: seq<nat>, p: nat)
    requires Chain(m, own, head, free) && p > 0 && p in own && own[p] != Free && p in m && |m[p]| == ENTRIES
    ensures Chain(m[p := SetWord(m[p], 0, head)], own[p := Free], p * PGSIZE, [p] + free)
  {
    hide LinkOk, SetWord;
    var m', own', free' := m[p := SetWord(m[p], 0, head)], own[p := Free], [p] + free;
    forall k | 0 <= k < |free'| ensures LinkOk(m', own', free', k) && (k > 0 ==> free'[k] != p) {
      if k > 0 { assert LinkOk(m, own, free, k - 1); }
      FreeLink(m, own, head, free, p, k);
    }
    DistinctRest(free, p);
    forall q | q in own' && own'[q] == Free ensures q in free' { if q != p { InRest(free, p, q); } }
  }

  lemma DistinctRest(free: seq<nat>, p: nat)
    requires (forall j, k :: 0 <= j < k < |free| ==> free[j] != free[k])
             && forall k :: 0 < k < |[p] + free| ==> ([p] + free)[k] != p
    ensures forall j, k :: 0 <= j < k < |[p] + free| ==> ([p] + free)[j] != ([p] + free)[k]
  {
    var f := [p] + free;
    forall j, k | 0 <= j < k < |f| ensures f[j] != f[k] {
      assert f[k] == free[k - 1] && (j > 0 ==> f[j] == free[j - 1]);
    }
  }

  lemma InRest(s: seq<nat>, p: nat, q: nat)
    requires q in s
    ensures q in [p] + s
  {
  }

  lemma TakeChain(m: Mem, own: Owners, head: nat, free: seq<nat>)
    requires Chain(m, own, head, free) && |free| > 0
    ensures LinkOk(m, own, free, 0) && Chain(m, own[free[0] := Used], m[free[0]][0], free[1..])
  {
    var own', free' := own[free[0] := Used], free[1..];
    assert LinkOk(m, own, free, 0);
    forall k | 0 <= k < |free'| ensures LinkOk(m, own', free', k) {
      assert LinkOk(m, own, free, k + 1);
      assert free'[k] == free[k + 1] && Addr(free', k + 1) == Addr(free, k + 2);
    }
    forall q | q in own' && own'[q] == Free ensures q in free' { NotFirst(free, q); }
  }

  lemma NotFirst(s: seq<nat>, q: nat)
    requires q in s && q != s[0]
    ensures q in s[1..]
  {
  }

  // Before kinit no page is free.
  ghost function AllUsed(lo: nat, hi: nat): (r: Owners)
    ensures forall p :: p in r <==> lo <= p < hi
    ensures forall p :: p in r ==> r[p] == Used
    decreases hi
  {
    if hi <= lo then map[] else AllUsed(lo, hi - 1)[hi - 1 := Used]
  }

  lemma NoTrees(m: Mem, own: Owners)
    requires forall p :: p in own ==> own[p] in {Free, Used} && p in m && |m[p]| == ENTRIES
    ensures TreesOk(m, own, {}) && forall p :: Childless(own, p)
  {
  }

  // ---------------------------------------------------------------- kalloc.c

  class Memory {
    const lo: nat
    const hi: nat
    var m: Mem
    var head: nat
    ghost var own: Owners
    ghost var free: seq<nat>
    ghost var hole: Holes

    ghost predicate Ok()
      reads this
    {
      MemOk(lo, hi, m, own, head, free, hole)
    }

    // A page of the free list, or 0.  What the page holds is left as it is.
    method Kalloc() returns (p: nat)
      requires Ok()
      modifies this`head, this`own, this`free
      ensures Ok() && (p == 0 <==> old(free) == [])
      ensures p == 0 ==> own == old(own) && free == old(free)
      ensures p != 0 ==> p in old(own) && old(own)[p] == Free && own == old(own)[p := Used]
                         && |free| + 1 == |old(free)| && p in m && |m[p]| == ENTRIES
    {
      hide TreesOk;
      assert free != [] ==> LinkOk(m, own, free, 0);
      p := head / PGSIZE;
      if head != 0 {
        assert p == free[0];
        TakeChain(m, own, head, free);
        TakenOk(m, own, hole, p);
        head := m[p][0];
        own := own[p := Used];
        free := free[1..];
      }
    }

    // Put page p on the free list.
    method Kfree(p: nat) returns (panic: bool)
      requires Ok() && (p in own ==> own[p] != Free && Childless(own, p)
                                     && (own[p].Table? ==> (own[p].parent, own[p].idx) in hole))
      modifies this`m, this`head, this`own, this`free
      ensures Ok() && (panic <==> !(lo <= p < hi))
      ensures panic ==> m == old(m) && own == old(own) && free == old(free)
      ensures !panic ==> p in old(m) && own == old(own)[p := Free] && free == [p] + old(free) && p in m
                         && |m[p]| == ENTRIES && m == old(m)[p := m[p]]
    {
      panic := !(lo <= p < hi);
      if panic { return; }
      assert PageOk(m, own, hole, p);
      hide TreesOk;
      FreeChain(m, own, head, free, p);
      FreedOk(m, own, hole, p, head);
      m := m[p := SetWord(m[p], 0, head)];
      head := p * PGSIZE;
      own := own[p := Free];
      free := [p] + free;
    }

    // The amount of free memory in bytes.
    method CollectFree() returns (bytes: nat)
      requires Ok()
      ensures bytes == |free| * PGSIZE
    {
      var r, count := head, 0;
      while r != 0
        invariant count <= |free| && r == Addr(free, count)
        decreases |free| - count
      {
        assert LinkOk(m, own, free, count) && r / PGSIZE == free[count];
        count := count + 1;
        r := m[r / PGSIZE][0];
      }
      assert count < |free| ==> LinkOk(m, own, free, count);
      bytes := count * PGSIZE;
    }

    // kinit: the pages lo .. hi, none of them free yet, go to the free list one by one.
    constructor (lo: nat, hi: nat, m: Mem)
      requires 0 < lo <= hi < 0x1000_0000_0000 && forall p :: lo <= p < hi ==> p in m && |m[p]| == ENTRIES
      ensures this.lo == lo && this.hi == hi && Ok() && hole == {} && |free| == hi - lo
      ensures forall p :: p in own ==> own[p] == Free
    {
      this.lo, this.hi, this.m := lo, hi, m;
      head, free, hole := 0, [], {};
      own := AllUsed(lo, hi);
      new;
      NoTrees(m, own);
      hide TreesOk, Childless;
      for p := lo to hi
        invariant this.lo == lo && this.hi == hi && Ok() && hole == {} && |free| == p - lo
        invariant forall q :: q in own ==> own[q] == if q < p then Free else Used
        invariant forall q :: q in own ==> q in this.m && |this.m[q]| == ENTRIES
      {
        NoTrees(this.m, own);
        var panic := Kfree(p);
      }
    }
  }
}
