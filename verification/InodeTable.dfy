/** The in-memory inode table of kernel/fs.c (iget, idup, ilock, iunlock, iput, ialloc), as the
    steps of any number of processes in any order.  A step is what one process does while it
    holds itable.lock or an inode's sleep-lock without giving it up. */
module InodeTable {
  import opened Params

  // Device and inode number.
  type Id = (nat, nat)
  type Pid = nat

  // What ilock reads and iupdate writes; kind 0 is a free inode.
  datatype DInode = DInode(kind: nat, nlink: int, body: seq<nat>)

  datatype Slot = Slot(id: Id, ref: nat, valid: bool, lock: Option<Pid>, copy: DInode)

  // One counted reference: who owns it and which slot it is to.
  datatype Token = Token(pid: Pid, slot: nat)

  // Where a process is inside iput, once it has found the last reference to an unlinked inode.
  datatype Pc = Freeing(slot: nat, tok: nat) | Written(slot: nat, tok: nat) | Invalid(slot: nat, tok: nat)
      | Unlocked(slot: nat, tok: nat)

  datatype State = State(disk: map<Id, DInode>, tab: seq<Slot>, toks: map<nat, Token>, pc: map<Pid, Pc>)

  ghost function Toks(st: State, s: nat): (r: set<nat>)
    ensures forall k :: k in r <==> k in st.toks && st.toks[k].slot == s
  {
    set k | k in st.toks && st.toks[k].slot == s
  }

  predicate Owns(st: State, p: Pid, s: nat, k: nat) { k in st.toks && st.toks[k] == Token(p, s) }

  function SetSlot(st: State, s: nat, v: Slot): State
    requires s < |st.tab|
  {
    st.(tab := st.tab[s := v])
  }

  // ---------------------------------------------------------------- steps

  predicate Hit(st: State, id: Id, s: nat) { s < |st.tab| && st.tab[s].ref > 0 && st.tab[s].id == id }

  // iget finds the inode in the table and takes a new reference k.
  predicate CanFind(st: State, p: Pid, id: Id, s: nat, k: nat) {
    p !in st.pc && id in st.disk && Hit(st, id, s) && k !in st.toks
  }

  function Find(st: State, p: Pid, id: Id, s: nat, k: nat): State
    requires s < |st.tab|
  {
    SetSlot(st, s, st.tab[s].(ref := st.tab[s].ref + 1)).(toks := st.toks[k := Token(p, s)])
  }

  // iget recycles an entry with no references; what it held before is forgotten.
  ghost predicate CanRecycle(st: State, p: Pid, id: Id, s: nat, k: nat) {
    p !in st.pc && id in st.disk && (forall j :: 0 <= j < |st.tab| ==> !Hit(st, id, j)) && s < |st.tab|
    && st.tab[s].ref == 0 && k !in st.toks
  }

  function Recycle(st: State, p: Pid, id: Id, s: nat, k: nat): State
    requires s < |st.tab|
  {
    SetSlot(st, s, st.tab[s].(id := id, ref := 1, valid := false)).(toks := st.toks[k := Token(p, s)])
  }

  // idup; the new reference may be for another process, as in fork.
  predicate CanDup(st: State, p: Pid, q: Pid, s: nat, k: nat, k': nat) {
    p !in st.pc && s < |st.tab| && Owns(st, p, s, k) && k' !in st.toks
  }

  // acquiresleep in ilock.
  predicate CanLock(st: State, p: Pid, s: nat, k: nat) {
    p !in st.pc && s < |st.tab| && Owns(st, p, s, k) && st.tab[s].lock == None
  }

  function Lock(st: State, p: Pid, s: nat): State
    requires s < |st.tab|
  {
    SetSlot(st, s, st.tab[s].(lock := Some(p)))
  }

  // The rest of ilock: read the inode if the entry is not valid; a free inode is a panic.
  predicate CanLoad(st: State, p: Pid, s: nat) {
    p !in st.pc && s < |st.tab| && st.tab[s].lock == Some(p) && !st.tab[s].valid && st.tab[s].id in st.disk
    && st.disk[st.tab[s].id].kind != 0
  }

  function Load(st: State, s: nat): State
    requires s < |st.tab| && st.tab[s].id in st.disk
  {
    SetSlot(st, s, st.tab[s].(valid := true, copy := st.disk[st.tab[s].id]))
  }

  // The lock holder changes the in-memory inode; only iput gives an inode kind 0.
  predicate CanModify(st: State, p: Pid, s: nat, v: DInode) {
    p !in st.pc && s < |st.tab| && st.tab[s].lock == Some(p) && st.tab[s].valid && v.kind != 0
  }

  function Modify(st: State, s: nat, v: DInode): State
    requires s < |st.tab|
  {
    SetSlot(st, s, st.tab[s].(copy := v))
  }

  // iupdate.
  predicate CanUpdate(st: State, p: Pid, s: nat) {
    p !in st.pc && s < |st.tab| && st.tab[s].lock == Some(p) && st.tab[s].valid
  }

  function Update(st: State, s: nat): State
    requires s < |st.tab|
  {
    st.(disk := st.disk[st.tab[s].id := st.tab[s].copy])
  }

  // iunlock, after iupdate has been called for every change.
  predicate CanUnlock(st: State, p: Pid, s: nat) {
    && p !in st.pc && s < |st.tab| && st.tab[s].lock == Some(p) && st.tab[s].valid
    && st.tab[s].id in st.disk && st.disk[st.tab[s].id] == st.tab[s].copy
  }

  function Unlock(st: State, s: nat): State
    requires s < |st.tab|
  {
    SetSlot(st, s, st.tab[s].(lock := None))
  }

  // iput is called for reference k by a process that does not hold the inode's lock.
  predicate Putting(st: State, p: Pid, s: nat, k: nat) {
    p !in st.pc && s < |st.tab| && Owns(st, p, s, k) && st.tab[s].lock != Some(p)
  }

  // The inode has no links and no other references.
  predicate LastPut(st: State, s: nat)
    requires s < |st.tab|
  {
    st.tab[s].ref == 1 && st.tab[s].valid && st.tab[s].copy.nlink == 0
  }

  predicate CanPut(st: State, p: Pid, s: nat, k: nat) { Putting(st, p, s, k) && !LastPut(st, s) }

  function Drop(st: State, s: nat, k: nat): State
    requires s < |st.tab|
  {
    SetSlot(st, s, st.tab[s].(ref := if st.tab[s].ref > 0 then st.tab[s].ref - 1 else 0)).(toks := st.toks - {k})
  }

  // acquiresleep in iput, itable.lock held; nothing may block here.
  predicate CanStartFree(st: State, p: Pid, s: nat, k: nat) {
    Putting(st, p, s, k) && LastPut(st, s) && st.tab[s].lock == None
  }

  function StartFree(st: State, p: Pid, s: nat, k: nat): State
    requires s < |st.tab|
  {
    Lock(st, p, s).(pc := st.pc[p := Freeing(s, k)])
  }

  // itrunc, type 0, iupdate.
  predicate CanFreeWrite(st: State, p: Pid) { p in st.pc && st.pc[p].Freeing? && st.pc[p].slot < |st.tab| }

  function FreeWrite(st: State, p: Pid): State
    requires p in st.pc && st.pc[p].slot < |st.tab|
  {
    var s := st.pc[p].slot;
    var v := DInode(0, st.tab[s].copy.nlink, []);
    SetSlot(st, s, st.tab[s].(copy := v)).(disk := st.disk[st.tab[s].id := v],
                                           pc := st.pc[p := Written(s, st.pc[p].tok)])
  }

  predicate CanInvalidate(st: State, p: Pid) { p in st.pc && st.pc[p].Written? && st.pc[p].slot < |st.tab| }

  function Invalidate(st: State, p: Pid): State
    requires p in st.pc && st.pc[p].slot < |st.tab|
  {
    var s := st.pc[p].slot;
    SetSlot(st, s, st.tab[s].(valid := false)).(pc := st.pc[p := Invalid(s, st.pc[p].tok)])
  }

  predicate CanFreeUnlock(st: State, p: Pid) { p in st.pc && st.pc[p].Invalid? && st.pc[p].slot < |st.tab| }

  function FreeUnlock(st: State, p: Pid): State
    requires p in st.pc && st.pc[p].slot < |st.tab|
  {
    var s := st.pc[p].slot;
    Unlock(st, s).(pc := st.pc[p := Unlocked(s, st.pc[p].tok)])
  }

  predicate CanFreeDrop(st: State, p: Pid) { p in st.pc && st.pc[p].Unlocked? && st.pc[p].slot < |st.tab| }

  function FreeDrop(st: State, p: Pid): State
    requires p in st.pc && st.pc[p].slot < |st.tab|
  {
    Drop(st, st.pc[p].slot, st.pc[p].tok).(pc := st.pc - {p})
  }

  // ialloc marks a free inode allocated on the disk; an iget of it follows.
  predicate CanAlloc(st: State, id: Id, kind: nat) { id in st.disk && st.disk[id].kind == 0 && kind != 0 }

  function Alloc(st: State, id: Id, kind: nat): State { st.(disk := st.disk[id := DInode(kind, 0, [])]) }

  // ---------------------------------------------------------------- the invariant

  // p is past the point in iput where the lock is taken and before it is released.
  predicate FreeingNow(st: State, p: Pid, s: nat) { p in st.pc && st.pc[p].slot == s && !st.pc[p].Unlocked? }

  ghost predicate SlotOk(st: State, s: nat)
    requires s < |st.tab|
  {
    var e := st.tab[s];
    && e.ref == |Toks(st, s)|
    && (e.ref > 0 ==> e.id in st.disk)
    && (e.lock.Some? ==> exists k :: Owns(st, e.lock.value, s, k))
    && (e.ref > 0 && e.valid && e.lock.None? ==> e.copy == st.disk[e.id] && e.copy.kind != 0)
    && (e.ref > 0 && e.valid && e.lock.Some? && !FreeingNow(st, e.lock.value, s) ==>
          e.copy.kind != 0 && st.disk[e.id].kind != 0)
  }

  // The entry of an inode that iput is about to free: in use on the disk, and without links there.
  predicate Doomed(st: State, s: nat)
    requires s < |st.tab|
  {
    && st.tab[s].valid && st.tab[s].id in st.disk && st.disk[st.tab[s].id] == st.tab[s].copy
    && st.tab[s].copy.kind != 0 && st.tab[s].copy.nlink == 0
  }

  ghost predicate PcOk(st: State, p: Pid)
    requires p in st.pc
  {
    var c := st.pc[p];
    && c.slot < |st.tab| && Owns(st, p, c.slot, c.tok)
    && (!c.Unlocked? <==> st.tab[c.slot].lock == Some(p))
    && (c.Freeing? ==> Doomed(st, c.slot))
    && (c.Invalid? ==> !st.tab[c.slot].valid)
  }

  ghost predicate Unique(st: State) {
    forall s, s' :: 0 <= s < s' < |st.tab| && st.tab[s].ref > 0 && st.tab[s'].ref > 0 ==> st.tab[s].id != st.tab[s'].id
  }

  ghost predicate Inv(st: State) {
    && (forall s :: 0 <= s < |st.tab| ==> SlotOk(st, s))
    && (forall p :: p in st.pc ==> PcOk(st, p))
    && (forall k :: k in st.toks ==> st.toks[k].slot < |st.tab|)
    && Unique(st)
  }

  // A reference to a slot counts.
  lemma OwnedRef(st: State, p: Pid, s: nat, k: nat)
    requires Inv(st) && Owns(st, p, s, k)
    ensures s < |st.tab| && st.tab[s].ref > 0 && k in Toks(st, s)
  {
    assert SlotOk(st, s);
    assert k in Toks(st, s);
  }

  // Two references make the count at least two.
  lemma TwoRefs(st: State, s: nat, k: nat, k': nat)
    requires s < |st.tab| && SlotOk(st, s) && k in Toks(st, s) && k' in Toks(st, s) && k != k'
    ensures st.tab[s].ref >= 2
  {
    assert |Toks(st, s) - {k} - {k'}| == |Toks(st, s)| - 2;
  }

  // ---------------------------------------------------------------- the theorems about one state

  // iput takes the sleep-lock of an inode to free while it holds itable.lock: it never blocks.
  lemma IputNeverBlocks(st: State, p: Pid, s: nat, k: nat)
    requires Inv(st) && Putting(st, p, s, k) && LastPut(st, s)
    ensures CanStartFree(st, p, s, k)
  {
    OwnedRef(st, p, s, k);
    assert SlotOk(st, s);
    if st.tab[s].lock.Some? {
      var q := st.tab[s].lock.value;
      var k' :| Owns(st, q, s, k');
      assert k' in Toks(st, s);
      TwoRefs(st, s, k, k');
    }
  }

  // ---------------------------------------------------------------- every step keeps the invariant

  // A slot that a step does not touch.
  lemma Untouched(st: State, st': State, s: nat)
    requires s < |st.tab| == |st'.tab| && SlotOk(st, s) && st'.tab[s] == st.tab[s]
    requires forall k :: k in st.toks && st.toks[k].slot == s ==> k in st'.toks && st'.toks[k] == st.toks[k]
    requires forall k :: k in st'.toks && st'.toks[k].slot == s ==> k in st.toks && st.toks[k] == st'.toks[k]
    requires st.tab[s].ref > 0 && st.tab[s].id in st.disk ==>
               st.tab[s].id in st'.disk && (st'.disk[st.tab[s].id] == st.disk[st.tab[s].id] || !st.tab[s].valid)
    requires st.tab[s].lock.Some? ==> FreeingNow(st', st.tab[s].lock.value,
                                                 s) == FreeingNow(st, st.tab[s].lock.value, s)
    ensures SlotOk(st', s)
  {
    assert Toks(st', s) == Toks(st, s);
    if st.tab[s].lock.Some? {
      var k :| Owns(st, st.tab[s].lock.value, s, k);
      assert Owns(st', st.tab[s].lock.value, s, k);
    }
  }

  lemma OneMore(st: State, st': State, s: nat, k: nat, p: Pid)
    requires s < |st.tab| == |st'.tab| && SlotOk(st, s) && k !in st.toks && st'.toks == st.toks[k := Token(p, s)]
    requires st'.tab[s] == st.tab[s].(ref := st.tab[s].ref + 1) && st.tab[s].ref > 0 && st'.disk == st.disk
             && st'.pc == st.pc
    ensures SlotOk(st', s)
  {
    assert Toks(st', s) == Toks(st, s) + {k};
    if st.tab[s].lock.Some? {
      var j :| Owns(st, st.tab[s].lock.value, s, j);
      assert Owns(st', st.tab[s].lock.value, s, j);
    }
  }

  lemma FindKeeps(st: State, p: Pid, id: Id, s: nat, k: nat)
    requires Inv(st) && CanFind(st, p, id, s, k)
    ensures Inv(Find(st, p, id, s, k))
  {
    TakenKeeps(st, p, s, k);
  }

  // One more reference to a slot in use.
  lemma TakenKeeps(st: State, q: Pid, s: nat, k: nat)
    requires Inv(st) && s < |st.tab| && st.tab[s].ref > 0 && k !in st.toks
    ensures Inv(SetSlot(st, s, st.tab[s].(ref := st.tab[s].ref + 1)).(toks := st.toks[k := Token(q, s)]))
  {
    hide SlotOk;
    var st' := SetSlot(st, s, st.tab[s].(ref := st.tab[s].ref + 1)).(toks := st.toks[k := Token(q, s)]);
    forall j | 0 <= j < |st.tab| ensures SlotOk(st', j) {
      if j == s { OneMore(st, st', s, k, q); } else { Untouched(st, st', j); }
    }
    forall r | r in st'.pc ensures PcOk(st', r) { assert PcOk(st, r); }
  }

  lemma RecycleKeeps(st: State, p: Pid, id: Id, s: nat, k: nat)
    requires Inv(st) && CanRecycle(st, p, id, s, k)
    ensures Inv(Recycle(st, p, id, s, k))
  {
    var st' := Recycle(st, p, id, s, k);
    assert SlotOk(st, s);
    NoRefNoLock(st, s);
    assert Toks(st', s) == {k};
    assert SlotOk(st', s);
    hide SlotOk;
    forall j | 0 <= j < |st.tab| && j != s ensures SlotOk(st', j) { Untouched(st, st', j); }
    forall j | 0 <= j < |st.tab| ensures st.tab[j].ref > 0 ==> st.tab[j].id != id { assert !Hit(st, id, j); }
    forall r | r in st'.pc ensures PcOk(st', r) { assert PcOk(st, r); OwnedRef(st, r, st.pc[r].slot, st.pc[r].tok); }
  }

  // A slot without references is not locked and nobody is freeing it.
  lemma NoRefNoLock(st: State, s: nat)
    requires s < |st.tab| && SlotOk(st, s) && st.tab[s].ref == 0
    ensures st.tab[s].lock == None && Toks(st, s) == {} && forall p, k :: !Owns(st, p, s, k)
  {
    forall p, k ensures !Owns(st, p, s, k) { assert k !in Toks(st, s); }
  }

  // A change to one slot's lock, validity or copy, and to its inode on the disk.
  ghost predicate OnlySlot(st: State, st': State, s: nat) {
    && s < |st.tab| == |st'.tab| && st.tab[s].ref > 0 && st'.tab == st.tab[s := st'.tab[s]] && st'.toks == st.toks
    && st'.tab[s].id == st.tab[s].id && st'.tab[s].ref == st.tab[s].ref
    && st.tab[s].id in st.disk && st.tab[s].id in st'.disk
    && st'.disk == st.disk[st.tab[s].id := st'.disk[st.tab[s].id]]
  }

  lemma OneSlot(st: State, st': State, s: nat)
    requires Inv(st) && |st'.tab| == |st.tab| && s < |st.tab| && OnlySlot(st, st', s) && SlotOk(st', s)
    requires forall p :: p in st.pc && st.pc[p].slot != s ==> p in st'.pc && st'.pc[p] == st.pc[p]
    requires forall p :: p in st'.pc && st'.pc[p].slot != s ==> p in st.pc && st'.pc[p] == st.pc[p]
    requires forall p :: p in st'.pc && st'.pc[p].slot == s ==> PcOk(st', p)
    ensures Inv(st')
  {
    hide SlotOk;
    forall j | 0 <= j < |st.tab| && j != s ensures SlotOk(st', j) {
      assert st.tab[j].ref > 0 ==> st.tab[j].id != st.tab[s].id;
      Untouched(st, st', j);
    }
    forall p | p in st'.pc && st'.pc[p].slot != s ensures PcOk(st', p) { OtherPc(st, st', s, p); }
  }

  lemma OtherPc(st: State, st': State, s: nat, p: Pid)
    requires Inv(st) && |st'.tab| == |st.tab| && OnlySlot(st, st', s) && p in st.pc && p in st'.pc
             && st'.pc[p] == st.pc[p] && st.pc[p].slot != s
    ensures PcOk(st', p)
  {
    assert PcOk(st, p);
    OwnedRef(st, p, st.pc[p].slot, st.pc[p].tok);
  }

  lemma LockKeeps(st: State, p: Pid, s: nat, k: nat)
    requires Inv(st) && CanLock(st, p, s, k)
    ensures Inv(Lock(st, p, s))
  {
    var st' := Lock(st, p, s);
    OwnedRef(st, p, s, k);
    assert SlotOk(st, s) && Owns(st', p, s, k) && Toks(st', s) == Toks(st, s);
    assert SlotOk(st', s);
    hide SlotOk;
    forall q | q in st'.pc && st'.pc[q].slot == s ensures PcOk(st', q) { assert PcOk(st, q); }
    OneSlot(st, st', s);
  }

  // The ordinary holder of a lock is in no iput of that slot.
  lemma HolderIsOrdinary(st: State, p: Pid, s: nat)
    requires Inv(st) && s < |st.tab| && st.tab[s].lock == Some(p) && p !in st.pc
    ensures st.tab[s].ref > 0 && st.tab[s].id in st.disk
            && (forall q :: q in st.pc && st.pc[q].slot == s ==> st.pc[q].Unlocked?)
    ensures exists k :: Owns(st, p, s, k)
  {
    assert SlotOk(st, s);
    var k :| Owns(st, p, s, k);
    OwnedRef(st, p, s, k);
    forall q | q in st.pc && st.pc[q].slot == s ensures st.pc[q].Unlocked? { assert PcOk(st, q); }
  }

  lemma LoadKeeps(st: State, p: Pid, s: nat)
    requires Inv(st) && CanLoad(st, p, s)
    ensures Inv(Load(st, s))
  {
    var st' := Load(st, s);
    HolderIsOrdinary(st, p, s);
    HolderSlot(st, st', p, s);
    hide SlotOk;
    forall q | q in st'.pc && st'.pc[q].slot == s ensures PcOk(st', q) { assert PcOk(st, q); }
    OneSlot(st, st', s);
  }

  lemma HolderSlot(st: State, st': State, p: Pid, s: nat)
    requires Inv(st) && s < |st.tab| == |st'.tab| && st.tab[s].lock == Some(p) && p !in st.pc && OnlySlot(st, st', s)
             && st'.pc == st.pc
    requires st'.tab[s].lock == Some(p) && (st'.tab[s].valid ==>
                                              st'.tab[s].copy.kind != 0 && st'.disk[st.tab[s].id].kind != 0)
    ensures SlotOk(st', s)
  {
    assert SlotOk(st, s);
    assert Toks(st', s) == Toks(st, s);
    var k :| Owns(st, p, s, k);
    assert Owns(st', p, s, k);
  }

  lemma ModifyKeeps(st: State, p: Pid, s: nat, v: DInode)
    requires Inv(st) && CanModify(st, p, s, v)
    ensures Inv(Modify(st, s, v))
  {
    var st' := Modify(st, s, v);
    HolderIsOrdinary(st, p, s);
    assert SlotOk(st, s);
    HolderSlot(st, st', p, s);
    hide SlotOk;
    forall q | q in st'.pc && st'.pc[q].slot == s ensures PcOk(st', q) { assert PcOk(st, q); }
    OneSlot(st, st', s);
  }

  lemma UpdateKeeps(st: State, p: Pid, s: nat)
    requires Inv(st) && CanUpdate(st, p, s)
    ensures Inv(Update(st, s))
  {
    var st' := Update(st, s);
    HolderIsOrdinary(st, p, s);
    assert SlotOk(st, s);
    HolderSlot(st, st', p, s);
    hide SlotOk;
    forall q | q in st'.pc && st'.pc[q].slot == s ensures PcOk(st', q) { assert PcOk(st, q); }
    OneSlot(st, st', s);
  }

  lemma UnlockKeeps(st: State, p: Pid, s: nat)
    requires Inv(st) && CanUnlock(st, p, s)
    ensures Inv(Unlock(st, s))
  {
    var st' := Unlock(st, s);
    HolderIsOrdinary(st, p, s);
    assert SlotOk(st, s) && Toks(st', s) == Toks(st, s);
    assert SlotOk(st', s);
    hide SlotOk;
    forall q | q in st'.pc && st'.pc[q].slot == s ensures PcOk(st', q) { assert PcOk(st, q); }
    OneSlot(st, st', s);
  }

  // ---------------------------------------------------------------- iput

  lemma DropSlot(st: State, st': State, p: Pid, s: nat, k: nat)
    requires s < |st.tab| == |st'.tab| && SlotOk(st, s) && st.tab[s].ref > 0 && Owns(st, p, s, k)
             && st.tab[s].lock != Some(p)
    requires st' == Drop(st, s, k).(pc := st'.pc) && st'.pc == st.pc - {p}
    ensures SlotOk(st', s)
  {
    assert Toks(st', s) == Toks(st, s) - {k};
    if st.tab[s].lock.Some? {
      var q := st.tab[s].lock.value;
      var j :| Owns(st, q, s, j);
      assert Owns(st', q, s, j) && FreeingNow(st', q, s) == FreeingNow(st, q, s);
    }
  }

  // Reference k of p is dropped; p holds no lock on the slot and is in no iput of it any more.
  lemma DropKeeps(st: State, st': State, p: Pid, s: nat, k: nat)
    requires Inv(st) && s < |st.tab| && Owns(st, p, s, k) && st.tab[s].lock != Some(p)
    requires st' == Drop(st, s, k).(pc := st'.pc) && st'.pc == st.pc - {p}
             && (p in st.pc ==> st.pc[p] == Unlocked(s, k))
    ensures Inv(st')
  {
    hide SlotOk;
    OwnedRef(st, p, s, k);
    DropSlot(st, st', p, s, k);
    forall j | 0 <= j < |st.tab| && j != s ensures SlotOk(st', j) { assert SlotOk(st, j); Untouched(st, st', j); }
    forall r | r in st'.pc ensures PcOk(st', r) { assert PcOk(st, r); }
  }

  lemma PutKeeps(st: State, p: Pid, s: nat, k: nat)
    requires Inv(st) && CanPut(st, p, s, k)
    ensures Inv(Drop(st, s, k))
  {
    hide SlotOk;
    assert st.pc - {p} == st.pc;
    DropKeeps(st, Drop(st, s, k), p, s, k);
  }

  lemma StartFreeKeeps(st: State, p: Pid, s: nat, k: nat)
    requires Inv(st) && CanStartFree(st, p, s, k)
    ensures Inv(StartFree(st, p, s, k))
  {
    var st' := StartFree(st, p, s, k);
    OwnedRef(st, p, s, k);
    assert SlotOk(st, s) && Owns(st', p, s, k) && Toks(st', s) == Toks(st, s);
    assert SlotOk(st', s);
    hide SlotOk;
    forall q | q in st'.pc && st'.pc[q].slot == s ensures PcOk(st', q) { if q != p { assert PcOk(st, q); } }
    OneSlot(st, st', s);
  }

  lemma FreeWriteKeeps(st: State, p: Pid)
    requires Inv(st) && CanFreeWrite(st, p)
    ensures Inv(FreeWrite(st, p))
  {
    var s, k := st.pc[p].slot, st.pc[p].tok;
    var st' := FreeWrite(st, p);
    assert PcOk(st, p);
    OwnedRef(st, p, s, k);
    assert SlotOk(st, s) && Owns(st', p, s, k) && Toks(st', s) == Toks(st, s);
    assert SlotOk(st', s);
    hide SlotOk;
    forall q | q in st'.pc && st'.pc[q].slot == s ensures PcOk(st', q) { assert PcOk(st, q); }
    OneSlot(st, st', s);
  }

  lemma InvalidateKeeps(st: State, p: Pid)
    requires Inv(st) && CanInvalidate(st, p)
    ensures Inv(Invalidate(st, p))
  {
    var s, k := st.pc[p].slot, st.pc[p].tok;
    var st' := Invalidate(st, p);
    assert PcOk(st, p);
    OwnedRef(st, p, s, k);
    assert SlotOk(st, s) && Owns(st', p, s, k) && Toks(st', s) == Toks(st, s);
    assert SlotOk(st', s);
    hide SlotOk;
    forall q | q in st'.pc && st'.pc[q].slot == s ensures PcOk(st', q) { assert PcOk(st, q); }
    OneSlot(st, st', s);
  }

  lemma FreeUnlockKeeps(st: State, p: Pid)
    requires Inv(st) && CanFreeUnlock(st, p)
    ensures Inv(FreeUnlock(st, p))
  {
    var s, k := st.pc[p].slot, st.pc[p].tok;
    var st' := FreeUnlock(st, p);
    assert PcOk(st, p);
    OwnedRef(st, p, s, k);
    assert SlotOk(st, s) && Toks(st', s) == Toks(st, s);
    assert SlotOk(st', s);
    hide SlotOk;
    forall q | q in st'.pc && st'.pc[q].slot == s ensures PcOk(st', q) { assert PcOk(st, q); }
    OneSlot(st, st', s);
  }

  lemma FreeDropKeeps(st: State, p: Pid)
    requires Inv(st) && CanFreeDrop(st, p)
    ensures Inv(FreeDrop(st, p))
  {
    var s, k := st.pc[p].slot, st.pc[p].tok;
    assert PcOk(st, p);
    hide SlotOk;
    DropKeeps(st, FreeDrop(st, p), p, s, k);
  }

  // ---------------------------------------------------------------- ialloc

  // While an inode is free on the disk, no entry of the table offers a copy of it: the entry
  // is not valid, or the iput that freed the inode still holds it and will invalidate it.
  lemma FreeInodeHasNoCopy(st: State, id: Id, s: nat)
    requires Inv(st) && id in st.disk && st.disk[id].kind == 0 && Hit(st, id, s) && st.tab[s].valid
    ensures st.tab[s].lock.Some? && st.tab[s].lock.value in st.pc && st.pc[st.tab[s].lock.value].Written?
            && st.pc[st.tab[s].lock.value].slot == s
  {
    assert SlotOk(st, s);
    var q := st.tab[s].lock.value;
    if q in st.pc { assert PcOk(st, q); }
  }

  lemma AllocKeeps(st: State, id: Id, kind: nat)
    requires Inv(st) && CanAlloc(st, id, kind)
    ensures Inv(Alloc(st, id, kind))
  {
    var st' := Alloc(st, id, kind);
    forall s | 0 <= s < |st.tab| ensures SlotOk(st', s) {
      assert SlotOk(st, s);
      if Hit(st, id, s) && st.tab[s].valid { FreeInodeHasNoCopy(st, id, s); }
      assert Toks(st', s) == Toks(st, s);
      if st.tab[s].lock.Some? {
        var k :| Owns(st, st.tab[s].lock.value, s, k);
        assert Owns(st', st.tab[s].lock.value, s, k);
      }
    }
    forall p | p in st'.pc ensures PcOk(st', p) { assert PcOk(st, p); }
  }

  // ---------------------------------------------------------------- runs

  datatype Event =
    | EFind(p: Pid, id: Id, s: nat, k: nat) | ERecycle(p: Pid, id: Id, s: nat, k: nat)
    | EDup(p: Pid, q: Pid, s: nat, k: nat, k': nat)
    | ELock(p: Pid, s: nat, k: nat) | ELoad(p: Pid, s: nat) | EModify(p: Pid, s: nat, v: DInode)
    | EUpdate(p: Pid, s: nat) | EUnlock(p: Pid, s: nat)
    | EPut(p: Pid, s: nat, k: nat) | EStartFree(p: Pid, s: nat, k: nat) | EFreeWrite(p: Pid) | EInvalidate(p: Pid)
    | EFreeUnlock(p: Pid) | EFreeDrop(p: Pid)
    | EAlloc(id: Id, kind: nat)

  ghost predicate Use(st: State, e: Event, st': State) {
    match e
    case EFind(p, id, s, k) => CanFind(st, p, id, s, k) && st' == Find(st, p, id, s, k)
    case ERecycle(p, id, s, k) => CanRecycle(st, p, id, s, k) && st' == Recycle(st, p, id, s, k)
    case EDup(p, q, s, k, k') => CanDup(st, p, q, s, k, k') && st' == Find(st, q, st.tab[s].id, s, k')
    case ELock(p, s, k) => CanLock(st, p, s, k) && st' == Lock(st, p, s)
    case ELoad(p, s) => CanLoad(st, p, s) && st' == Load(st, s)
    case EModify(p, s, v) => CanModify(st, p, s, v) && st' == Modify(st, s, v)
    case EUpdate(p, s) => CanUpdate(st, p, s) && st' == Update(st, s)
    case EUnlock(p, s) => CanUnlock(st, p, s) && st' == Unlock(st, s)
    case _ => false
  }

  ghost predicate Release(st: State, e: Event, st': State) {
    match e
    case EPut(p, s, k) => CanPut(st, p, s, k) && st' == Drop(st, s, k)
    case EStartFree(p, s, k) => CanStartFree(st, p, s, k) && st' == StartFree(st, p, s, k)
    case EFreeWrite(p) => CanFreeWrite(st, p) && st' == FreeWrite(st, p)
    case EInvalidate(p) => CanInvalidate(st, p) && st' == Invalidate(st, p)
    case EFreeUnlock(p) => CanFreeUnlock(st, p) && st' == FreeUnlock(st, p)
    case EFreeDrop(p) => CanFreeDrop(st, p) && st' == FreeDrop(st, p)
    case EAlloc(id, kind) => CanAlloc(st, id, kind) && st' == Alloc(st, id, kind)
    case _ => false
  }

  ghost predicate Next(st: State, e: Event, st': State) { Use(st, e, st') || Release(st, e, st') }

  // Boot: an empty table.
  predicate Init(st: State) {
    st.toks == map[] && st.pc == map[] && forall s :: 0 <= s < |st.tab| ==> st.tab[s].ref == 0 && st.tab[s].lock == None
  }

  lemma InitOk(st: State)
    requires Init(st)
    ensures Inv(st)
  {
    forall s | 0 <= s < |st.tab| ensures SlotOk(st, s) { assert Toks(st, s) == {}; }
  }

  lemma UseKeeps(st: State, e: Event, st': State)
    requires Inv(st) && Use(st, e, st')
    ensures Inv(st')
  {
    hide Inv;
    match e
    case EFind(p, id, s, k) => FindKeeps(st, p, id, s, k);
    case ERecycle(p, id, s, k) => RecycleKeeps(st, p, id, s, k);
    case EDup(p, q, s, k, k') => OwnedRef(st, p, s, k); TakenKeeps(st, q, s, k');
    case ELock(p, s, k) => LockKeeps(st, p, s, k);
    case ELoad(p, s) => LoadKeeps(st, p, s);
    case EModify(p, s, v) => ModifyKeeps(st, p, s, v);
    case EUpdate(p, s) => UpdateKeeps(st, p, s);
    case EUnlock(p, s) => UnlockKeeps(st, p, s);
  }

  lemma ReleaseKeeps(st: State, e: Event, st': State)
    requires Inv(st) && Release(st, e, st')
    ensures Inv(st')
  {
    hide Inv;
    match e
    case EPut(p, s, k) => PutKeeps(st, p, s, k);
    case EStartFree(p, s, k) => StartFreeKeeps(st, p, s, k);
    case EFreeWrite(p) => FreeWriteKeeps(st, p);
    case EInvalidate(p) => InvalidateKeeps(st, p);
    case EFreeUnlock(p) => FreeUnlockKeeps(st, p);
    case EFreeDrop(p) => FreeDropKeeps(st, p);
    case EAlloc(id, kind) => AllocKeeps(st, id, kind);
  }

  ghost predicate Run(states: seq<State>, events: seq<Event>)
    ensures Run(states, events) ==> |states| == |events| + 1
  {
    |states| == |events| + 1 && Init(states[0]) && forall k :: 0 <= k < |events| ==>
                                                                 Next(states[k], events[k], states[k + 1])
  }

  lemma {:induction false} RunOk(states: seq<State>, events: seq<Event>, n: nat)
    requires Run(states, events) && n < |states|
    ensures Inv(states[n])
  {
    hide Inv, Next;
    if n == 0 {
      InitOk(states[0]);
    } else {
      RunOk(states, events, n - 1);
      assert Next(states[n - 1], events[n - 1], states[n - 1 + 1]);
      StepOk(states[n - 1], events[n - 1], states[n]);
    }
  }

  lemma StepOk(st: State, e: Event, st': State)
    requires Inv(st) && Next(st, e, st')
    ensures Inv(st')
  {
    hide Inv, Use, Release;
    if Use(st, e, st') { UseKeeps(st, e, st'); } else { ReleaseKeeps(st, e, st'); }
  }

  // ---------------------------------------------------------------- what every run guarantees

  // At most one entry in use stands for an inode.
  lemma OneEntryPerInode(states: seq<State>, events: seq<Event>, n: nat, s: nat, s': nat)
    requires Run(states, events) && n < |states| && s < |states[n].tab| && s' < |states[n].tab|
    requires states[n].tab[s].ref > 0 && states[n].tab[s'].ref > 0 && states[n].tab[s].id == states[n].tab[s'].id
    ensures s == s'
  {
    RunOk(states, events, n);
  }

  // iput never waits for the sleep-lock of the inode it frees.
  lemma IputNeverWaits(states: seq<State>, events: seq<Event>, n: nat, p: Pid, s: nat, k: nat)
    requires Run(states, events) && n < |states| && Putting(states[n], p, s, k) && LastPut(states[n], s)
    ensures CanStartFree(states[n], p, s, k)
  {
    RunOk(states, events, n);
    IputNeverBlocks(states[n], p, s, k);
  }

  // Whoever takes an inode's lock either finds the inode as it is on the disk, and in use, or
  // finds the entry not valid and reads it: also when ialloc has handed the inode out again
  // while an iput was still freeing it.
  lemma LockerSeesTheDisk(states: seq<State>, events: seq<Event>, n: nat, p: Pid, s: nat, k: nat)
    requires Run(states, events) && n < |states| && CanLock(states[n], p, s, k)
    ensures var st := states[n];
            && st.tab[s].ref > 0 && st.tab[s].id in st.disk
            && (st.tab[s].valid ==> st.tab[s].copy == st.disk[st.tab[s].id] && st.tab[s].copy.kind != 0)
            && (!st.tab[s].valid && st.disk[st.tab[s].id].kind != 0 ==>
                  CanLoad(Lock(st, p, s), p, s) && Load(Lock(st, p, s), s).tab[s].copy == st.disk[st.tab[s].id])
  {
    RunOk(states, events, n);
    OwnedRef(states[n], p, s, k);
    assert SlotOk(states[n], s);
  }

  // When ialloc hands out an inode, an entry that still stands for it is not valid or about to
  // be invalidated by the iput that freed it.
  lemma ReuseIsReread(states: seq<State>, events: seq<Event>, n: nat, id: Id, kind: nat, s: nat)
    requires Run(states, events) && n < |states| && CanAlloc(states[n], id, kind) && Hit(states[n], id, s)
    ensures !states[n].tab[s].valid || exists p :: p in states[n].pc && states[n].pc[p].Written?
                                                   && states[n].pc[p].slot == s && states[n].tab[s].lock == Some(p)
  {
    RunOk(states, events, n);
    if states[n].tab[s].valid { FreeInodeHasNoCopy(states[n], id, s); }
  }

  // ---------------------------------------------------------------- which inodes are freed

  // An inode that becomes free on the disk had no links there, and it is an iput that frees it.
  lemma FreedOnlyUnlinked(states: seq<State>, events: seq<Event>, n: nat, id: Id) returns (p: Pid, s: nat)
    requires Run(states, events) && n < |events| && id in states[n].disk && id in states[n + 1].disk
    requires states[n].disk[id].kind != 0 && states[n + 1].disk[id].kind == 0
    ensures states[n].disk[id].nlink == 0
    ensures events[n] == EFreeWrite(p) && p in states[n].pc && states[n].pc[p].Freeing? && states[n].pc[p].slot == s
    ensures s < |states[n].tab| && states[n].tab[s].id == id
  {
    RunOk(states, events, n);
    assert Next(states[n], events[n], states[n + 1]);
    p, s := FreeingStep(states[n], events[n], states[n + 1], id);
  }

  lemma FreeingStep(st: State, e: Event, st': State, id: Id) returns (p: Pid, s: nat)
    requires Inv(st) && Next(st, e, st') && id in st.disk && id in st'.disk
    requires st.disk[id].kind != 0 && st'.disk[id].kind == 0
    ensures st.disk[id].nlink == 0
    ensures e == EFreeWrite(p) && p in st.pc && st.pc[p].Freeing? && st.pc[p].slot == s
    ensures s < |st.tab| && st.tab[s].id == id
  {
    if e.EUpdate? { UpdatedFree(st, e.p, e.s); }
    assert e.EFreeWrite?;
    p := e.p;
    s := st.pc[p].slot;
    assert PcOk(st, p);
  }

  // How a process comes to be freeing an inode.
  lemma FreeingFrom(st: State, e: Event, st': State, p: Pid)
    requires Next(st, e, st') && p in st'.pc && st'.pc[p].Freeing?
    ensures (p in st.pc && st.pc[p] == st'.pc[p]) || e == EStartFree(p, st'.pc[p].slot, st'.pc[p].tok)
  {
  }

  // An iput that is freeing an inode began when its reference was the only one to an entry whose inode
  // had no links on the disk.
  lemma {:induction false} FreeingSince(states: seq<State>, events: seq<Event>, n: nat, p: Pid) returns (m: nat)
    requires Run(states, events) && n < |states| && p in states[n].pc && states[n].pc[p].Freeing?
    ensures m < n && events[m] == EStartFree(p, states[n].pc[p].slot, states[n].pc[p].tok)
    ensures var s, k := states[n].pc[p].slot, states[n].pc[p].tok;
            && s < |states[m].tab| && Toks(states[m], s) == {k} && Doomed(states[m + 1], s)
            && forall j :: m < j <= n ==> p in states[j].pc && states[j].pc[p] == states[n].pc[p]
  {
    hide Inv, Next;
    assert Init(states[0]);
    assert Next(states[n - 1], events[n - 1], states[n - 1 + 1]);
    FreeingFrom(states[n - 1], events[n - 1], states[n], p);
    if p in states[n - 1].pc && states[n - 1].pc[p] == states[n].pc[p] {
      m := FreeingSince(states, events, n - 1, p);
    } else {
      m := n - 1;
      RunOk(states, events, m);
      RunOk(states, events, n);
      OnlyReference(states[m], states[n], p, states[n].pc[p].slot, states[n].pc[p].tok);
    }
  }

  lemma OnlyReference(st: State, st': State, p: Pid, s: nat, k: nat)
    requires Inv(st) && Inv(st') && Next(st, EStartFree(p, s, k), st')
    ensures s < |st.tab| && s < |st'.tab| && Toks(st, s) == {k} && Doomed(st', s)
  {
    assert SlotOk(st, s) && k in Toks(st, s);
    assert |Toks(st, s) - {k}| == 0;
    assert PcOk(st', p);
  }

  // Event e takes reference k to slot s.
  predicate Takes(e: Event, s: nat, k: nat) {
    (e.EFind? && e.s == s && e.k == k) || (e.ERecycle? && e.s == s && e.k == k) || (e.EDup? && e.s == s && e.k' == k)
  }

  lemma {:induction false} TakenSince(states: seq<State>, events: seq<Event>, m: nat, n: nat, s: nat, k: nat)
    requires Run(states, events) && m <= n < |states| && k in Toks(states[n], s) && k !in Toks(states[m], s)
    ensures exists j :: m <= j < n && Takes(events[j], s, k)
  {
    hide Inv, Next;
    assert Next(states[n - 1], events[n - 1], states[n - 1 + 1]);
    if k in Toks(states[n - 1], s) {
      TakenSince(states, events, m, n - 1, s, k);
    } else {
      TakenNow(states[n - 1], events[n - 1], states[n], s, k);
    }
  }

  lemma TakenNow(st: State, e: Event, st': State, s: nat, k: nat)
    requires Next(st, e, st') && k in Toks(st', s) && k !in Toks(st, s)
    ensures Takes(e, s, k)
  {
  }

  // When an inode becomes free on the disk, the iput that frees it began, at step m, with the only
  // reference to it; every other reference there is by now was taken since.
  lemma FreedByLastReference(states: seq<State>, events: seq<Event>, n: nat, id: Id)
    returns (p: Pid, s: nat, k: nat, m: nat)
    requires Run(states, events) && n < |events| && id in states[n].disk && id in states[n + 1].disk
    requires states[n].disk[id].kind != 0 && states[n + 1].disk[id].kind == 0
    ensures events[n] == EFreeWrite(p) && m < n && events[m] == EStartFree(p, s, k)
    ensures s < |states[n].tab| && states[n].tab[s].id == id && Toks(states[m], s) == {k} && k in Toks(states[n], s)
    ensures forall k' :: k' in Toks(states[n], s) && k' != k ==> exists j :: m <= j < n && Takes(events[j], s, k')
  {
    p, s := FreedOnlyUnlinked(states, events, n, id);
    k := states[n].pc[p].tok;
    m := FreeingSince(states, events, n, p);
    RunOk(states, events, n);
    assert PcOk(states[n], p);
    forall k' | k' in Toks(states[n], s) && k' != k ensures exists j :: m <= j < n && Takes(events[j], s, k') {
      TakenSince(states, events, m, n, s, k');
    }
  }

  lemma LastGone(st: State, e: Event, st': State, s: nat)
    requires Inv(st) && Next(st, e, st') && s < |st.tab| && Toks(st, s) != {} && Toks(st', s) == {}
    ensures (e.EPut? && e.s == s && !LastPut(st, s)) || e.EFreeDrop?
    ensures e.EPut? ==> !(st.tab[s].valid && st.tab[s].copy.nlink == 0)
  {
    var k :| k in Toks(st, s);
    assert k !in Toks(st', s);
    assert e.EPut? || e.EFreeDrop?;
    assert SlotOk(st, s);
    if e.EPut? {
      assert e.s == s && Toks(st', s) == Toks(st, s) - {e.k} && e.k in Toks(st, s);
      assert |Toks(st, s)| == |Toks(st', s)| + 1;
    }
  }

  // Processes that are freeing an inode work on different entries.
  ghost predicate OneFreer(st: State) {
    forall p, q :: p in st.pc && q in st.pc && st.pc[p].slot == st.pc[q].slot ==> p == q
  }

  lemma NobodyFreesAtBoot(st: State)
    requires Init(st)
    ensures OneFreer(st)
  {
  }

  lemma OneFreerKept(st: State, e: Event, st': State)
    requires Inv(st) && OneFreer(st) && Next(st, e, st')
    ensures OneFreer(st')
  {
    if e.EStartFree? {
      assert SlotOk(st, e.s) && e.k in Toks(st, e.s);
      assert |Toks(st, e.s) - {e.k}| == 0;
      forall q | q in st.pc ensures st.pc[q].slot != e.s { assert PcOk(st, q); }
    }
  }

  lemma {:induction false} OneFreerInRun(states: seq<State>, events: seq<Event>, n: nat)
    requires Run(states, events) && n < |states|
    ensures OneFreer(states[n])
  {
    hide Inv, Next, OneFreer;
    if n == 0 {
      NobodyFreesAtBoot(states[0]);
    } else {
      OneFreerInRun(states, events, n - 1);
      RunOk(states, events, n - 1);
      assert Next(states[n - 1], events[n - 1], states[n - 1 + 1]);
      OneFreerKept(states[n - 1], events[n - 1], states[n]);
    }
  }

  // p has freed the inode id, that of slot s, and has yet to drop its reference.
  predicate Freed(st: State, p: Pid, s: nat, id: Id) {
    && p in st.pc && !st.pc[p].Freeing? && st.pc[p].slot == s && s < |st.tab| && st.tab[s].id == id && id in st.disk
  }

  predicate Allocates(e: Event, id: Id) { e.EAlloc? && e.id == id }

  // How a process comes to have freed an inode.
  lemma FreedFrom(st: State, e: Event, st': State, p: Pid, s: nat, id: Id)
    requires Inv(st) && OneFreer(st) && Next(st, e, st') && Freed(st', p, s, id)
    ensures (e == EFreeWrite(p) && st'.disk[id].kind == 0)
            || (Freed(st, p, s, id) && e != EFreeWrite(p)
                && (st'.disk[id].kind == 0 <==> st.disk[id].kind == 0 && !Allocates(e, id)))
  {
    FreedSlot(st, e, st', p, s, id);
    if e != EFreeWrite(p) { FreedDisk(st, e, st', p, s, id); }
  }

  lemma FreedSlot(st: State, e: Event, st': State, p: Pid, s: nat, id: Id)
    requires Inv(st) && Next(st, e, st') && Freed(st', p, s, id)
    ensures e == EFreeWrite(p) ==> st'.disk[id].kind == 0
    ensures e != EFreeWrite(p) ==> Freed(st, p, s, id)
  {
    FreerWas(st, e, st', p);
    FreersRef(st, p);
    hide Inv;
    if e != EFreeWrite(p) { SameInode(st, e, st', s); }
  }

  lemma FreerWas(st: State, e: Event, st': State, p: Pid)
    requires Next(st, e, st') && p in st'.pc && !st'.pc[p].Freeing?
    ensures p in st.pc && st.pc[p].slot == st'.pc[p].slot && (st.pc[p].Freeing? ==> e == EFreeWrite(p))
  {
  }

  // An entry in use keeps its inode.
  lemma SameInode(st: State, e: Event, st': State, s: nat)
    requires Next(st, e, st') && s < |st.tab| && st.tab[s].ref > 0
    ensures s < |st'.tab| && st'.tab[s].id == st.tab[s].id
  {
  }

  lemma FreersRef(st: State, p: Pid)
    requires Inv(st) && p in st.pc
    ensures st.pc[p].slot < |st.tab| && st.tab[st.pc[p].slot].ref > 0 && st.tab[st.pc[p].slot].id in st.disk
  {
    assert PcOk(st, p) && SlotOk(st, st.pc[p].slot) && st.pc[p].tok in Toks(st, st.pc[p].slot);
  }

  lemma FreedDisk(st: State, e: Event, st': State, p: Pid, s: nat, id: Id)
    requires Inv(st) && OneFreer(st) && Next(st, e, st') && Freed(st, p, s, id) && e != EFreeWrite(p) && id in st'.disk
    ensures st'.disk[id].kind == 0 <==> st.disk[id].kind == 0 && !Allocates(e, id)
  {
    if e.EUpdate? { UpdatedFree(st, e.p, e.s); }
    if e.EFreeWrite? { OtherInode(st, p, e.p); }
    hide Inv, OneFreer;
    DiskStep(st, e, st', id);
  }

  // Only ialloc, iupdate and the freeing of an inode write it.
  lemma DiskStep(st: State, e: Event, st': State, id: Id)
    requires Next(st, e, st') && id in st.disk && id in st'.disk
    requires e.EUpdate? ==> st.tab[e.s].id in st.disk && st.disk[st.tab[e.s].id].kind != 0 && st.tab[e.s].copy.kind != 0
    requires e.EFreeWrite? ==> st.tab[st.pc[e.p].slot].id != id
    ensures st'.disk[id].kind == 0 <==> st.disk[id].kind == 0 && !Allocates(e, id)
  {
  }

  // The inode that iupdate writes is in use before and after.
  lemma UpdatedFree(st: State, p: Pid, s: nat)
    requires Inv(st) && CanUpdate(st, p, s)
    ensures st.tab[s].id in st.disk && st.disk[st.tab[s].id].kind != 0 && st.tab[s].copy.kind != 0
  {
    HolderIsOrdinary(st, p, s);
    assert SlotOk(st, s);
  }

  lemma OtherInode(st: State, p: Pid, q: Pid)
    requires Inv(st) && OneFreer(st) && p in st.pc && q in st.pc && p != q
    ensures st.pc[p].slot < |st.tab| && st.pc[q].slot < |st.tab|
            && st.tab[st.pc[p].slot].id != st.tab[st.pc[q].slot].id
  {
    FreersRef(st, p);
    FreersRef(st, q);
  }

  // A process that has freed an inode did so at some step m, and the inode is still free exactly when
  // ialloc has not handed it out since.
  lemma {:induction false} FreedSince(states: seq<State>, events: seq<Event>, n: nat, p: Pid, s: nat, id: Id)
    returns (m: nat)
    requires Run(states, events) && n < |states| && Freed(states[n], p, s, id)
    ensures m < n && events[m] == EFreeWrite(p) && id in states[m + 1].disk && states[m + 1].disk[id].kind == 0
    ensures states[n].disk[id].kind == 0 <==> forall j :: m < j < n ==> !Allocates(events[j], id)
  {
    hide Inv, Next, OneFreer;
    assert Init(states[0]);
    RunOk(states, events, n - 1);
    OneFreerInRun(states, events, n - 1);
    assert Next(states[n - 1], events[n - 1], states[n - 1 + 1]);
    FreedFrom(states[n - 1], events[n - 1], states[n], p, s, id);
    if events[n - 1] == EFreeWrite(p) {
      m := n - 1;
    } else {
      m := FreedSince(states, events, n - 1, p, s, id);
    }
  }

  // When the last reference to an inode goes away, either it was not an unlinked inode that had been
  // read, or an iput had freed it at step m; the inode is then left free on the disk exactly when
  // ialloc has not handed it out since.
  lemma LastReferenceGone(states: seq<State>, events: seq<Event>, n: nat, s: nat) returns (m: nat)
    requires Run(states, events) && n < |events| && s < |states[n].tab|
    requires Toks(states[n], s) != {} && Toks(states[n + 1], s) == {}
    ensures var id := states[n].tab[s].id;
            || (events[n].EPut? && !(states[n].tab[s].valid && states[n].tab[s].copy.nlink == 0))
            || (exists p ::
                  && events[n] == EFreeDrop(p) && m < n && events[m] == EFreeWrite(p)
                  && id in states[m + 1].disk && states[m + 1].disk[id].kind == 0 && id in states[n + 1].disk
                  && (states[n + 1].disk[id].kind == 0 <==> forall j :: m < j < n ==> !Allocates(events[j], id)))
  {
    RunOk(states, events, n);
    assert Next(states[n], events[n], states[n + 1]);
    LastGone(states[n], events[n], states[n + 1], s);
    m := 0;
    if events[n].EFreeDrop? {
      var p := events[n].p;
      DroppedFreed(states[n], states[n + 1], p, s);
      m := FreedSince(states, events, n, p, s, states[n].tab[s].id);
      assert events[n] == EFreeDrop(p);
    }
  }

  lemma DroppedFreed(st: State, st': State, p: Pid, s: nat)
    requires Inv(st) && Next(st, EFreeDrop(p), st') && s < |st.tab| && Toks(st, s) != {} && Toks(st', s) == {}
    ensures Freed(st, p, s, st.tab[s].id) && st'.disk == st.disk
  {
    assert PcOk(st, p) && SlotOk(st, s);
    var k :| k in Toks(st, s);
    assert k !in Toks(st', s);
  }

  // ---------------------------------------------------------------- what an inode contains

  // The holder of slot s works on its copy of inode id.
  predicate Works(st: State, s: nat, id: Id)
    ensures Works(st, s, id) ==> s < |st.tab|
  {
    && s < |st.tab| && st.tab[s].ref > 0 && st.tab[s].id == id && st.tab[s].valid && st.tab[s].lock.Some?
    && !FreeingNow(st, st.tab[s].lock.value, s)
  }

  // Inode id contains v: in the copy its holder works on, and otherwise on the disk.
  ghost predicate Contains(st: State, id: Id, v: DInode) {
    && id in st.disk && (forall s: nat :: Works(st, s, id) ==> st.tab[s].copy == v)
    && ((forall s: nat :: !Works(st, s, id)) ==> st.disk[id] == v)
  }

  // Event e gives inode id other contents.
  predicate Writes(st: State, e: Event, id: Id) {
    || (e.EModify? && e.s < |st.tab| && st.tab[e.s].id == id)
    || (e.EFreeWrite? && e.p in st.pc && st.pc[e.p].slot < |st.tab| && st.tab[st.pc[e.p].slot].id == id)
    || Allocates(e, id)
  }

  // A lock holder has a reference besides that of a process that puts one.
  lemma TwoReferences(st: State, s: nat, p: Pid, k: nat)
    requires Inv(st) && s < |st.tab| && Owns(st, p, s, k) && st.tab[s].lock.Some? && st.tab[s].lock != Some(p)
    ensures st.tab[s].ref >= 2
  {
    assert SlotOk(st, s);
    var k' :| Owns(st, st.tab[s].lock.value, s, k');
    TwoRefs(st, s, k, k');
  }

  // What a step does to an entry whose holder works on it: another process leaves it alone, and the
  // holder changes the copy only by writing, and gives up the lock only when the disk has the copy.
  lemma WorkedOn(st: State, e: Event, st': State, id: Id, s: nat)
    requires Inv(st) && Next(st, e, st') && !Writes(st, e, id) && Works(st, s, id)
    ensures Works(st', s, id) ==> st'.tab[s].copy == st.tab[s].copy
    ensures !Works(st', s, id) ==> id in st'.disk && st'.disk[id] == st.tab[s].copy
  {
    assert SlotOk(st, s);
    if e.EPut? && e.s == s { TwoReferences(st, s, e.p, e.k); }
    if e.EFreeDrop? && st.pc[e.p].slot == s {
      assert PcOk(st, e.p);
      TwoReferences(st, s, e.p, st.pc[e.p].tok);
    }
    if (e.EFreeWrite? || e.EInvalidate? || e.EFreeUnlock?) { assert PcOk(st, e.p); }
    hide Inv;
    if Use(st, e, st') { WorkedByUse(st, e, st', id, s); } else { WorkedByRelease(st, e, st', id, s); }
  }

  lemma WorkedByUse(st: State, e: Event, st': State, id: Id, s: nat)
    requires Use(st, e, st') && !Writes(st, e, id) && Works(st, s, id)
    ensures Works(st', s, id) ==> st'.tab[s].copy == st.tab[s].copy
    ensures !Works(st', s, id) ==> id in st'.disk && st'.disk[id] == st.tab[s].copy
  {
  }

  lemma WorkedByRelease(st: State, e: Event, st': State, id: Id, s: nat)
    requires Release(st, e, st') && !Writes(st, e, id) && Works(st, s, id)
    requires (e.EPut? && e.s == s) || (e.EFreeDrop? && st.pc[e.p].slot == s) ==> st.tab[s].ref >= 2
    requires e.EFreeWrite? || e.EInvalidate? || e.EFreeUnlock? ==> st.pc[e.p].slot != s
    ensures Works(st', s, id) && st'.tab[s].copy == st.tab[s].copy
  {
  }

  // A step after which an entry is worked on finds the disk's inode in it.
  lemma WorkBegins(st: State, e: Event, st': State, id: Id, s: nat)
    requires Inv(st) && Next(st, e, st') && !Writes(st, e, id) && id in st.disk && !Works(st, s, id)
             && Works(st', s, id)
    ensures s < |st.tab| && st.tab[s].ref > 0 && st.tab[s].id == id && st'.tab[s].copy == st.disk[id]
  {
    if s < |st.tab| { assert SlotOk(st, s); }
    if e.EFreeDrop? && st.pc[e.p].slot == s { assert PcOk(st, e.p); }
    hide Inv;
    if Use(st, e, st') { BegunByUse(st, e, st', id, s); } else { NotBegunByRelease(st, e, st', id, s); }
  }

  lemma BegunByUse(st: State, e: Event, st': State, id: Id, s: nat)
    requires Use(st, e, st') && !Writes(st, e, id) && id in st.disk && !Works(st, s, id) && Works(st', s, id)
    requires s < |st.tab| ==> SlotOk(st, s)
    ensures s < |st.tab| && st.tab[s].ref > 0 && st.tab[s].id == id && st'.tab[s].copy == st.disk[id]
  {
  }

  lemma NotBegunByRelease(st: State, e: Event, st': State, id: Id, s: nat)
    requires Release(st, e, st') && !Works(st, s, id) && (e.EFreeDrop? && st.pc[e.p].slot == s ==> st.pc[e.p].Unlocked?)
    ensures !Works(st', s, id)
  {
  }

  lemma DiskStays(st: State, e: Event, st': State, id: Id)
    requires Inv(st) && Next(st, e, st') && !Writes(st, e, id) && id in st.disk
    ensures id in st'.disk && (st'.disk[id] == st.disk[id] || (e.EUpdate? && Works(st, e.s, id)))
  {
    if e.EUpdate? { HolderIsOrdinary(st, e.p, e.s); }
  }

  // Nothing but a write changes what an inode contains.
  lemma ContentsKept(st: State, e: Event, st': State, id: Id, v: DInode)
    requires Inv(st) && Next(st, e, st') && !Writes(st, e, id) && Contains(st, id, v)
    ensures Contains(st', id, v)
  {
    hide Next, Works;
    DiskStays(st, e, st', id);
    forall s: nat | Works(st', s, id) ensures st'.tab[s].copy == v {
      if Works(st, s, id) {
        WorkedOn(st, e, st', id, s);
      } else {
        WorkBegins(st, e, st', id, s);
        forall s': nat ensures !Works(st, s', id) { if Works(st, s', id) { OneWorks(st, s, s', id); } }
      }
    }
    if forall s: nat :: !Works(st', s, id) {
      if s: nat :| Works(st, s, id) { WorkedOn(st, e, st', id, s); }
    }
  }

  lemma OneWorks(st: State, s: nat, s': nat, id: Id)
    requires Inv(st) && s < |st.tab| && st.tab[s].ref > 0 && st.tab[s].id == id && Works(st, s', id)
    ensures s == s'
  {
  }

  // The contents that a write leaves.
  function NewContents(st: State, e: Event, id: Id): DInode
    requires Writes(st, e, id)
  {
    match e
    case EModify(_, _, v) => v
    case EFreeWrite(p) => DInode(0, st.tab[st.pc[p].slot].copy.nlink, [])
    case EAlloc(_, kind) => DInode(kind, 0, [])
  }

  lemma WriteContains(st: State, e: Event, st': State, id: Id)
    requires Inv(st) && Next(st, e, st') && Writes(st, e, id)
    ensures Contains(st', id, NewContents(st, e, id))
  {
    StepOk(st, e, st');
    match e
    case EModify(p, s, v) =>
      HolderIsOrdinary(st, p, s);
      assert Works(st', s, id);
      forall s': nat | Works(st', s', id) ensures st'.tab[s'].copy == v { OneWorks(st', s, s', id); }
    case EFreeWrite(p) => NobodyWorks(st', st'.pc[p].slot, p, id);
    case EAlloc(_, _) =>
      forall s: nat | s < |st.tab| ensures !Works(st', s, id) { assert SlotOk(st, s); }
  }

  lemma NobodyWorks(st: State, s: nat, p: Pid, id: Id)
    requires Inv(st) && p in st.pc && st.pc[p].slot == s && !st.pc[p].Unlocked?
    requires s < |st.tab| && st.tab[s].id == id
    ensures forall s': nat :: !Works(st, s', id)
  {
    assert PcOk(st, p);
    FreersRef(st, p);
    forall s': nat ensures !Works(st, s', id) { if Works(st, s', id) { OneWorks(st, s, s', id); } }
  }

  lemma {:induction false} ContentsStay(states: seq<State>, events: seq<Event>, m: nat, n: nat, id: Id, v: DInode)
    requires Run(states, events) && m <= n < |states| && Contains(states[m], id, v)
    requires forall j :: m <= j < n ==> !Writes(states[j], events[j], id)
    ensures Contains(states[n], id, v)
  {
    hide Inv, Next, Contains, Writes;
    if m < n {
      ContentsStay(states, events, m, n - 1, id, v);
      RunOk(states, events, n - 1);
      assert Next(states[n - 1], events[n - 1], states[n - 1 + 1]);
      ContentsKept(states[n - 1], events[n - 1], states[n], id, v);
    }
  }

  // What a process gave an inode is what every later holder finds in it and what the disk has when
  // nobody works on it, until the next write: by a holder, by the iput that frees it, or by ialloc.
  lemma LastWriteStays(states: seq<State>, events: seq<Event>, m: nat, n: nat, id: Id)
    requires Run(states, events) && m < n < |states| && Writes(states[m], events[m], id)
    requires forall j :: m < j < n ==> !Writes(states[j], events[j], id)
    ensures var v := NewContents(states[m], events[m], id);
            && id in states[n].disk && (forall s: nat :: Works(states[n], s, id) ==> states[n].tab[s].copy == v)
            && ((forall s: nat :: !Works(states[n], s, id)) ==> states[n].disk[id] == v)
  {
    hide Inv, Next, Writes, NewContents;
    RunOk(states, events, m);
    assert Next(states[m], events[m], states[m + 1]);
    WriteContains(states[m], events[m], states[m + 1], id);
    ContentsStay(states, events, m + 1, n, id, NewContents(states[m], events[m], id));
  }

  // ---------------------------------------------------------------- the race happens

  lemma Extend(states: seq<State>, events: seq<Event>, e: Event, st': State)
    returns (states': seq<State>, events': seq<Event>)
    requires Run(states, events) && Next(states[|events|], e, st')
    ensures states' == states + [st'] && events' == events + [e] && Run(states', events')
  {
    states', events' := states + [st'], events + [e];
  }

  const ID: Id := (1, 5)
  const OLD: DInode := DInode(2, 0, [])
  const NEW: DInode := DInode(3, 0, [])

  // Process 0 has the unlinked inode open.
  lemma Opened() returns (states: seq<State>, events: seq<Event>)
    ensures Run(states, events) && states[|events|] == State(map[ID := OLD], [Slot(ID, 1, true, None, OLD)],
                                                             map[0 := Token(0, 0)], map[])
  {
    var st := State(map[ID := OLD], [Slot((0, 0), 0, false, None, OLD)], map[], map[]);
    states, events := [st], [];
    assert Run(states, events);
    hide Run;
    var st1 := Recycle(st, 0, ID, 0, 0);
    states, events := Extend(states, events, ERecycle(0, ID, 0, 0), st1);
    var st2 := Lock(st1, 0, 0);
    states, events := Extend(states, events, ELock(0, 0, 0), st2);
    var st3 := Load(st2, 0);
    states, events := Extend(states, events, ELoad(0, 0), st3);
    var st4 := Unlock(st3, 0);
    states, events := Extend(states, events, EUnlock(0, 0), st4);
  }

  // Its iput frees the inode on the disk, and ialloc hands it out again.
  lemma HandedOut() returns (states: seq<State>, events: seq<Event>)
    ensures Run(states, events)
    ensures states[|events|] == State(map[ID := NEW], [Slot(ID, 1, true, Some(0), DInode(0, 0, []))],
                                      map[0 := Token(0, 0)], map[0 := Written(0, 0)])
  {
    states, events := Opened();
    hide Run;
    var st1 := StartFree(states[|events|], 0, 0, 0);
    states, events := Extend(states, events, EStartFree(0, 0, 0), st1);
    var st2 := FreeWrite(st1, 0);
    states, events := Extend(states, events, EFreeWrite(0), st2);
    var st3 := Alloc(st2, ID, 3);
    states, events := Extend(states, events, EAlloc(ID, 3), st3);
  }

  // The entry holds a valid copy that is not what the disk has.
  predicate Outdated(st: State) { Hit(st, ID, 0) && st.tab[0].valid && ID in st.disk && st.tab[0].copy != st.disk[ID] }

  // The rest of iput.
  lemma LetsGo(states: seq<State>, events: seq<Event>, p: Pid) returns (states': seq<State>, events': seq<Event>)
    requires Run(states, events) && var st := states[|events|]; CanInvalidate(st, p) && st.tab[st.pc[p].slot].ref > 0
    ensures Run(states', events') && states <= states'
    ensures var st := states[|events|];
            var s, e := st.pc[p].slot, st.tab[st.pc[p].slot];
            states'[|events'|] == State(st.disk, st.tab[s := e.(ref := e.ref - 1, valid := false, lock := None)],
                                        st.toks - {st.pc[p].tok}, st.pc - {p})
  {
    hide Run;
    var st := states[|events|];
    var st1 := Invalidate(st, p);
    states', events' := Extend(states, events, EInvalidate(p), st1);
    var st2 := FreeUnlock(st1, p);
    states', events' := Extend(states', events', EFreeUnlock(p), st2);
    var st3 := FreeDrop(st2, p);
    states', events' := Extend(states', events', EFreeDrop(p), st3);
    assert st3.pc == st.pc - {p};
  }

  // An inode is handed out and referenced again while its entry holds a valid but outdated copy,
  // and the new user reads it from the disk.
  lemma ReusedWhileFreed() returns (states: seq<State>, events: seq<Event>, n: nat)
    ensures Run(states, events) && n < |events| && Outdated(states[n]) && 1 in states[n].toks
    ensures var st := states[|events|]; |st.tab| == 1 && st.tab[0].lock == Some(1) && st.tab[0].valid
                                        && st.tab[0].copy == NEW
  {
    states, events := HandedOut();
    hide Run;
    var st1 := Find(states[|events|], 1, ID, 0, 1);
    states, events := Extend(states, events, EFind(1, ID, 0, 1), st1);
    n := |events|;
    ghost var first := states;
    states, events := LetsGo(states, events, 0);
    var st2 := states[|events|];
    assert st2.toks == map[1 := Token(1, 0)] && st2.pc == map[]
           && st2.tab == [Slot(ID, 1, false, None, DInode(0, 0, []))];
    assert states[n] == first[n];
    var st3 := Lock(st2, 1, 0);
    states, events := Extend(states, events, ELock(1, 0, 1), st3);
    var st4 := Load(st3, 0);
    states, events := Extend(states, events, ELoad(1, 0), st4);
    assert states[n] == first[n];
  }

  // While an iput is freeing an inode another process may find it: the inode is freed with two
  // references to it.
  lemma FreedWhileFound() returns (states: seq<State>, events: seq<Event>, n: nat)
    ensures Run(states, events) && n < |events| && events[n] == EFreeWrite(0)
    ensures ID in states[n].disk && states[n].disk[ID].kind != 0 && Toks(states[n], 0) == {0, 1}
  {
    states, events := Opened();
    hide Run;
    var st1 := StartFree(states[|events|], 0, 0, 0);
    states, events := Extend(states, events, EStartFree(0, 0, 0), st1);
    var st2 := Find(st1, 1, ID, 0, 1);
    states, events := Extend(states, events, EFind(1, ID, 0, 1), st2);
    n := |events|;
    var st3 := FreeWrite(st2, 0);
    states, events := Extend(states, events, EFreeWrite(0), st3);
    assert st2.toks == map[0 := Token(0, 0), 1 := Token(1, 0)];
  }

  // An inode that ialloc handed out while its last iput was under way, and whose new user then puts it
  // without having linked it, is left in use on the disk without links and without references.
  lemma LeftUnlinked() returns (states: seq<State>, events: seq<Event>)
    ensures Run(states, events)
    ensures var st := states[|events|]; Toks(st, 0) == {} && st.disk == map[ID := NEW] && NEW.kind != 0
                                        && NEW.nlink == 0
  {
    states, events := FoundAgain();
    states, events := UsedAndPut(states, events);
    hide Run;
    states, events := Extend(states, events, EFreeDrop(0), FreeDrop(states[|events|], 0));
  }

  // A new user finds the inode that was handed out, and the iput under way releases its lock.
  lemma FoundAgain() returns (states: seq<State>, events: seq<Event>)
    ensures Run(states, events)
    ensures states[|events|] == State(map[ID := NEW], [Slot(ID, 2, false, None, DInode(0, 0, []))],
                                      map[0 := Token(0, 0), 1 := Token(1, 0)], map[0 := Unlocked(0, 0)])
  {
    states, events := HandedOut();
    hide Run;
    var st1 := Find(states[|events|], 1, ID, 0, 1);
    states, events := Extend(states, events, EFind(1, ID, 0, 1), st1);
    var st2 := Invalidate(st1, 0);
    states, events := Extend(states, events, EInvalidate(0), st2);
    states, events := Extend(states, events, EFreeUnlock(0), FreeUnlock(st2, 0));
  }

  // The new user's part: it reads the inode and puts it.
  lemma UsedAndPut(states: seq<State>, events: seq<Event>) returns (states': seq<State>, events': seq<Event>)
    requires Run(states, events)
    requires states[|events|] == State(map[ID := NEW], [Slot(ID, 2, false, None, DInode(0, 0, []))],
                                       map[0 := Token(0, 0), 1 := Token(1, 0)], map[0 := Unlocked(0, 0)])
    ensures Run(states', events')
    ensures states'[|events'|] == State(map[ID := NEW], [Slot(ID, 1, true, None, NEW)],
                                        map[0 := Token(0, 0)], map[0 := Unlocked(0, 0)])
  {
    hide Run;
    var st1 := Lock(states[|events|], 1, 0);
    states', events' := Extend(states, events, ELock(1, 0, 1), st1);
    var st2 := Load(st1, 0);
    states', events' := Extend(states', events', ELoad(1, 0), st2);
    var st3 := Unlock(st2, 0);
    states', events' := Extend(states', events', EUnlock(1, 0), st3);
    var st4 := Drop(st3, 0, 1);
    states', events' := Extend(states', events', EPut(1, 0, 1), st4);
    assert st4.toks == map[0 := Token(0, 0)];
  }

  // A holder changes an inode, writes it and lets go; the next one finds the change.
  lemma ChangeIsSeen() returns (states: seq<State>, events: seq<Event>)
    ensures Run(states, events)
    ensures var st := states[|events|]; st.disk == map[ID := NEW] && Works(st, 0, ID) && st.tab[0].lock == Some(1)
                                        && st.tab[0].copy == NEW != OLD
  {
    states, events := Opened();
    hide Run;
    var st1 := Lock(states[|events|], 0, 0);
    states, events := Extend(states, events, ELock(0, 0, 0), st1);
    var st2 := Modify(st1, 0, NEW);
    states, events := Extend(states, events, EModify(0, 0, NEW), st2);
    var st3 := Update(st2, 0);
    states, events := Extend(states, events, EUpdate(0, 0), st3);
    var st4 := Unlock(st3, 0);
    states, events := Extend(states, events, EUnlock(0, 0), st4);
    var st5 := Find(st4, 1, ID, 0, 1);
    states, events := Extend(states, events, EDup(0, 1, 0, 0, 1), st5);
    var st6 := Lock(st5, 1, 0);
    states, events := Extend(states, events, ELock(1, 0, 1), st6);
  }
}
