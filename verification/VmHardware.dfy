/** Address translation as the machine does it: Sv39, sections 4.3.2 and 4.4 of the RISC-V Instruction
    Set Manual, Volume II (Privileged Architecture, 20211203).  What the kernel writes into its page
    tables is what this walk finds. */
module VmHardware {
  import opened VmPages
  import opened VmTables

  const PPN_LIMIT: nat := 0x1000_0000_0000

  // Bits 12 to 20, 21 to 29 and 30 to 38 of a virtual address.
  function Vpn(va: nat, i: nat): (n: nat)
    ensures n < ENTRIES
  {
    (if i == 0 then va / 0x1000 else if i == 1 then va / 0x20_0000 else va / 0x4000_0000) % 512
  }

  predicate V(e: nat) { e % 2 == 1 }
  predicate R(e: nat) { e / 2 % 2 == 1 }
  predicate W(e: nat) { e / 4 % 2 == 1 }
  predicate X(e: nat) { e / 8 % 2 == 1 }
  predicate U(e: nat) { e / 16 % 2 == 1 }

  // Bits 10 to 53 of an entry.
  function Ppn(e: nat): nat { e / 1024 % PPN_LIMIT }

  // A page fault, or a page with its permissions.
  datatype Translation = Fault | Page(page: nat, entry: nat)

  // The walk from the table in page a, at level i.
  function Translate(m: Mem, a: nat, va: nat, i: nat): (t: Translation)
    requires i < 3
    decreases i
  {
    if a !in m || Vpn(va, i) >= |m[a]| then Fault
    else
      var e := m[a][Vpn(va, i)];
      if !V(e) || (!R(e) && W(e)) then Fault
      else if R(e) || X(e) then
        var size := if i == 0 then 1 else if i == 1 then 512 else 262144;
        if Ppn(e) % size != 0 then Fault else Page(Ppn(e) + va / 0x1000 % size, e)
      else if i == 0 then Fault
      else Translate(m, Ppn(e), va, i - 1)
  }

  // Each level of walk takes its nine bits of the address.
  lemma SameIndex(va: nat)
    ensures Vpn(va, 0) == PX(0, va / PGSIZE) && Vpn(va, 1) == PX(1, va / PGSIZE) && Vpn(va, 2) == PX(2, va / PGSIZE)
  {
    assert va / 0x20_0000 == va / 0x1000 / 512;
    assert va / 0x4000_0000 == va / 0x1000 / 262144;
  }

  lemma Bits(e: nat)
    ensures V(e) <==> Valid(e)
    ensures Leafy(e) <==> R(e) || W(e) || X(e)
  {
    assert e / 4 == e / 2 / 2 && e / 8 == e / 2 / 4;
    ThreeBits(e / 2);
  }

  lemma ThreeBits(a: nat)
    ensures a % 8 != 0 <==> a % 2 == 1 || a / 2 % 2 == 1 || a / 4 % 2 == 1
  {
    var b := a / 2;
    var c := b / 2;
    assert c == a / 4;
    LowBits(c / 2, c % 2, b % 2, a % 2);
  }

  lemma LowBits(q: nat, x: nat, y: nat, z: nat)
    requires x < 2 && y < 2 && z < 2
    ensures (2 * (2 * (2 * q + x) + y) + z) % 8 == 4 * x + 2 * y + z
  {
    assert 2 * (2 * (2 * q + x) + y) + z == 8 * q + (4 * x + 2 * y + z);
  }

  // An entry that points to a table page.
  lemma Pointer(p: nat)
    requires p < PPN_LIMIT
    ensures var e := Entry(p, PTE_V); V(e) && !R(e) && !W(e) && !X(e) && Ppn(e) == p
  {
    hide V, R, W, X, Ppn, Entry, Leafy, Valid, PageOf;
    JustValid();
    var e := Entry(p, PTE_V);
    Bits(e);
    PpnIs(e);
  }

  lemma JustValid()
    ensures Valid(PTE_V) && !Leafy(PTE_V)
  {
  }

  lemma PpnIs(e: nat)
    ensures PageOf(e) < PPN_LIMIT ==> Ppn(e) == PageOf(e)
  {
  }

  // What the walk makes of the entry of a page.
  function LeafOf(e: nat): Translation {
    if !V(e) || (!R(e) && W(e)) then Fault else Page(Ppn(e), e)
  }

  // The machine finds exactly the entry that the kernel's functions read and write for the page.
  lemma HardwareAgrees(m: Mem, own: Owners, r: nat, va: nat)
    requires TreesOk(m, own, {}) && IsRoot(own, r) && forall p :: p in own ==> p < PPN_LIMIT
    ensures Translate(m, r, va, 2) == LeafOf(Pte(m, r, va / PGSIZE))
  {
    hide Vpn, PX, V, R, W, X, Ppn, Entry;
    var v := va / PGSIZE;
    SameIndex(va);
    NoEntry();
    OneLevel(m, own, r, va, 2);
    var t1 := T1(m, r, v);
    if t1 != 0 {
      OnPath(m, own, r, v);
      OneLevel(m, own, t1, va, 1);
      if T0(m, r, v) != 0 { LastLevel(m, own, r, va); }
    }
  }

  lemma NoEntry()
    ensures LeafOf(0) == Fault
  {
  }

  // At the upper levels the walk goes where Child goes.
  lemma OneLevel(m: Mem, own: Owners, a: nat, va: nat, i: nat)
    requires TreesOk(m, own, {}) && 0 !in own && 0 < i < 3 && IsTable(own, a, i)
             && forall p :: p in own ==> p < PPN_LIMIT
    ensures var q := Child(m, a, Vpn(va, i));
            Translate(m, a, va, i) == if q == 0 then Fault else Translate(m, q, va, i - 1)
  {
    hide Vpn, R, W, X, Ppn, Entry;
    assert PageOk(m, own, {}, a);
    assert EntryOk(m, own, a, i, Vpn(va, i));
    var e := m[a][Vpn(va, i)];
    Bits(e);
    if e != 0 { Pointer(PageOf(e)); }
  }

  lemma LastLevel(m: Mem, own: Owners, r: nat, va: nat)
    requires TreesOk(m, own, {}) && IsRoot(own, r) && T0(m, r, va / PGSIZE) != 0
    ensures Translate(m, T0(m, r, va / PGSIZE), va, 0) == LeafOf(Pte(m, r, va / PGSIZE))
  {
    hide Vpn, PX, V, R, W, X, Ppn, T0;
    var v := va / PGSIZE;
    SameIndex(va);
    PteAt(m, own, r, v);
    var e := Pte(m, r, v);
    Bits(e);
    if Valid(e) { LeafEntry(m, own, T0(m, r, v), PX(0, v)); }
    WholePage(e, va);
  }

  lemma WholePage(e: nat, va: nat)
    ensures Ppn(e) % 1 == 0 && va / 0x1000 % 1 == 0
  {
  }
}
