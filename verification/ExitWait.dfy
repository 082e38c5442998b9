/** fork, exit, wait and reparent of kernel/proc.c as the steps of any number of processes in any
    order, with wait_lock and the p->locks. */
module ExitWait {
  import opened Params

  // ALIVE is RUNNABLE, RUNNING or SLEEPING elsewhere; ASLEEP is SLEEPING in wait.
  datatype PState = UNUSED | USED | ALIVE | ASLEEP | ZOMBIE

  datatype Pc =
    | Off                             // not running: a free slot, a process not yet started, a zombie
    | Normal
    | Fork1(np: nat) | Fork2(np: nat) // the child is allocated; its parent is set
    | Reparent(k: nat, st: int)       // exit, with wait_lock, about to look at process k
    | WakeInit(k: nat, st: int)       // a child was given to init, which is to be woken
    | Exit3(st: int)                  // the parent has been woken
    | Exit4                           // ZOMBIE, with p->lock and wait_lock
    | Exit5                           // wait_lock released, in sched with p->lock
    | Scan(k: nat, kids: bool)        // wait, with wait_lock, about to look at process k
    | Wait3                           // in sleep: p->lock and wait_lock held
    | Wait4                           // wait_lock released, p->lock held
    | Slept                           // SLEEPING, or since woken, and switched away
    | Again                           // about to acquire wait_lock again

  // plock says whether the process holds its own lock; passed is the argument of its last exit;
  // forker is the process that is making it.
  datatype Proc = Proc(state: PState, parent: Option<nat>, xstate: int, passed: int, plock: bool, forker: Option<nat>,
                       pc: Pc)

  // wl is the holder of wait_lock.
  datatype State = State(wl: Option<nat>, init: nat, procs: seq<Proc>)

  const FREE: Proc := Proc(UNUSED, None, 0, 0, false, None, Off)

  predicate Is(s: State, p: nat) { p < |s.procs| }

  function Set(s: State, p: nat, v: Proc): State
    requires Is(s, p)
  {
    s.(procs := s.procs[p := v])
  }

  // wakeup(q): only q itself sleeps on channel q.
  function Wake(e: Proc): Proc { if e.state == ASLEEP then e.(state := ALIVE) else e }

  // ---------------------------------------------------------------- fork

  // allocproc
  predicate CanFork1(s: State, p: nat, np: nat) {
    Is(s, p) && Is(s, np) && s.procs[p].pc == Normal && s.procs[np].state == UNUSED && p != np
  }

  function DoFork1(s: State, p: nat, np: nat): State
    requires Is(s, p) && Is(s, np)
  {
    Set(Set(s, np, s.procs[np].(state := USED, forker := Some(p))), p, s.procs[p].(pc := Fork1(np)))
  }

  predicate InFork(s: State, p: nat) {
    Is(s, p) && (s.procs[p].pc.Fork1? || s.procs[p].pc.Fork2?) && Is(s, s.procs[p].pc.np) && s.procs[p].pc.np != p
  }

  // uvmcopy failed: freeproc
  predicate CanForkFail(s: State, p: nat) { InFork(s, p) && s.procs[p].pc.Fork1? }

  function DoForkFail(s: State, p: nat): State
    requires InFork(s, p)
  {
    Set(Set(s, s.procs[p].pc.np, FREE), p, s.procs[p].(pc := Normal))
  }

  // np->parent = p, under wait_lock
  predicate CanFork2(s: State, p: nat) { InFork(s, p) && s.procs[p].pc.Fork1? && s.wl == None }

  function DoFork2(s: State, p: nat): State
    requires InFork(s, p)
  {
    var np := s.procs[p].pc.np;
    Set(Set(s, np, s.procs[np].(parent := Some(p))), p, s.procs[p].(pc := Fork2(np)))
  }

  // np->state = RUNNABLE
  predicate CanFork3(s: State, p: nat) { InFork(s, p) && s.procs[p].pc.Fork2? }

  function DoFork3(s: State, p: nat): State
    requires InFork(s, p)
  {
    var np := s.procs[p].pc.np;
    Set(Set(s, np, s.procs[np].(state := ALIVE, forker := None, pc := Normal)), p, s.procs[p].(pc := Normal))
  }

  // ---------------------------------------------------------------- exit

  predicate CanExit(s: State, p: nat) { Is(s, p) && s.procs[p].pc == Normal && p != s.init && s.wl == None }

  function DoExit(s: State, p: nat, st: int): State
    requires Is(s, p)
  {
    Set(s, p, s.procs[p].(pc := Reparent(0, st), passed := st)).(wl := Some(p))
  }

  predicate CanReparent(s: State, p: nat) { Is(s, p) && s.procs[p].pc.Reparent? && Is(s, s.procs[p].pc.k) }

  // Process k is no child of p, or it is given to init.
  function DoReparent(s: State, p: nat): State
    requires CanReparent(s, p)
  {
    var k, st := s.procs[p].pc.k, s.procs[p].pc.st;
    if s.procs[k].parent == Some(p) && k != p
    then Set(Set(s, k, s.procs[k].(parent := Some(s.init))), p, s.procs[p].(pc := WakeInit(k, st)))
    else Set(s, p, s.procs[p].(pc := Reparent(k + 1, st)))
  }

  predicate CanWakeInit(s: State, p: nat) {
    Is(s, p) && s.procs[p].pc.WakeInit? && Is(s, s.init) && s.init != p && !s.procs[s.init].plock
  }

  function DoWakeInit(s: State, p: nat): State
    requires CanWakeInit(s, p)
  {
    Set(Set(s, s.init, Wake(s.procs[s.init])), p, s.procs[p].(pc := Reparent(s.procs[p].pc.k + 1, s.procs[p].pc.st)))
  }

  predicate CanWakeParent(s: State, p: nat) {
    && Is(s, p) && s.procs[p].pc.Reparent? && s.procs[p].pc.k == |s.procs|
    && s.procs[p].parent.Some? && Is(s, s.procs[p].parent.value) && s.procs[p].parent.value != p
    && !s.procs[s.procs[p].parent.value].plock
  }

  function DoWakeParent(s: State, p: nat): State
    requires CanWakeParent(s, p)
  {
    var q := s.procs[p].parent.value;
    Set(Set(s, q, Wake(s.procs[q])), p, s.procs[p].(pc := Exit3(s.procs[p].pc.st)))
  }

  predicate CanZombie(s: State, p: nat) { Is(s, p) && s.procs[p].pc.Exit3? && !s.procs[p].plock }

  function DoZombie(s: State, p: nat): State
    requires CanZombie(s, p)
  {
    Set(s, p, s.procs[p].(state := ZOMBIE, xstate := s.procs[p].pc.st, plock := true, pc := Exit4))
  }

  predicate CanRelease(s: State, p: nat) { Is(s, p) && s.procs[p].pc == Exit4 }

  function DoRelease(s: State, p: nat): State
    requires Is(s, p)
  {
    Set(s, p, s.procs[p].(pc := Exit5)).(wl := None)
  }

  // sched: the scheduler releases p->lock.
  predicate CanSwitch(s: State, p: nat) { Is(s, p) && s.procs[p].pc == Exit5 }

  function DoSwitch(s: State, p: nat): State
    requires Is(s, p)
  {
    Set(s, p, s.procs[p].(plock := false, pc := Off))
  }

  // ---------------------------------------------------------------- wait

  predicate CanWait(s: State, p: nat) {
    Is(s, p) && (s.procs[p].pc == Normal || s.procs[p].pc == Again) && s.wl == None
  }

  function DoWait(s: State, p: nat): State
    requires Is(s, p)
  {
    Set(s, p, s.procs[p].(pc := Scan(0, false))).(wl := Some(p))
  }

  predicate InScan(s: State, p: nat) { Is(s, p) && s.procs[p].pc.Scan? && Is(s, s.procs[p].pc.k) }

  // Process k is no child, or a child whose lock could be taken and that is no zombie.
  predicate CanLook(s: State, p: nat) {
    InScan(s, p) && var e := s.procs[s.procs[p].pc.k]; e.parent == Some(p) ==> !e.plock && e.state != ZOMBIE
  }

  function DoLook(s: State, p: nat): State
    requires InScan(s, p)
  {
    var k := s.procs[p].pc.k;
    Set(s, p, s.procs[p].(pc := Scan(k + 1, s.procs[p].pc.kids || s.procs[k].parent == Some(p))))
  }

  predicate Found(s: State, p: nat) {
    InScan(s, p) && var e := s.procs[s.procs[p].pc.k];
        e.parent == Some(p) && !e.plock && e.state == ZOMBIE && s.procs[p].pc.k != p
  }

  // A zombie child: its status is reported, the slot is freed, and wait returns.
  function DoFree(s: State, p: nat): State
    requires Found(s, p)
  {
    Set(Set(s, s.procs[p].pc.k, FREE), p, s.procs[p].(pc := Normal)).(wl := None)
  }

  function Reported(s: State, p: nat): int
    requires Found(s, p)
  {
    s.procs[s.procs[p].pc.k].xstate
  }

  // wait returns -1: the status could not be copied out, or there are no children, or p is killed.
  predicate CanGiveUp(s: State, p: nat) {
    Is(s, p) && s.procs[p].pc.Scan? && (Found(s, p) || s.procs[p].pc.k == |s.procs|)
  }

  function DoGiveUp(s: State, p: nat): State
    requires Is(s, p)
  {
    Set(s, p, s.procs[p].(pc := Normal)).(wl := None)
  }

  // sleep(p, &wait_lock)
  predicate CanSleep(s: State, p: nat) { Is(s, p) && s.procs[p].pc == Scan(|s.procs|, true) && !s.procs[p].plock }

  function DoSleep(s: State, p: nat): State
    requires Is(s, p)
  {
    Set(s, p, s.procs[p].(plock := true, pc := Wait3))
  }

  predicate CanDrop(s: State, p: nat) { Is(s, p) && s.procs[p].pc == Wait3 }

  function DoDrop(s: State, p: nat): State
    requires Is(s, p)
  {
    Set(s, p, s.procs[p].(pc := Wait4)).(wl := None)
  }

  predicate CanDoze(s: State, p: nat) { Is(s, p) && s.procs[p].pc == Wait4 }

  function DoDoze(s: State, p: nat): State
    requires Is(s, p)
  {
    Set(s, p, s.procs[p].(state := ASLEEP, plock := false, pc := Slept))
  }

  predicate CanResume(s: State, p: nat) {
    Is(s, p) && s.procs[p].pc == Slept && s.procs[p].state == ALIVE && !s.procs[p].plock
  }

  function DoResume(s: State, p: nat): State
    requires Is(s, p)
  {
    Set(s, p, s.procs[p].(pc := Again))
  }

  // kill wakes a sleeper.
  predicate CanKill(s: State, q: nat) { Is(s, q) && !s.procs[q].plock }

  function DoKill(s: State, q: nat): State
    requires Is(s, q)
  {
    Set(s, q, Wake(s.procs[q]))
  }

  // ---------------------------------------------------------------- the invariant

  predicate Living(st: PState) { st == ALIVE || st == ASLEEP }

  // These hold wait_lock.
  predicate Holds(pc: Pc) { pc.Reparent? || pc.WakeInit? || pc.Exit3? || pc.Exit4? || pc.Scan? || pc.Wait3? }

  // These hold their own p->lock.
  predicate SelfLocked(pc: Pc) { pc.Exit4? || pc.Exit5? || pc.Wait3? || pc.Wait4? }

  predicate StateOk(e: Proc) {
    match e.pc
    case Off => e.state == UNUSED || e.state == USED || e.state == ZOMBIE
    case Exit4 => e.state == ZOMBIE
    case Exit5 => e.state == ZOMBIE
    case Slept => Living(e.state)
    case _ => e.state == ALIVE
  }

  // What the entry of process p says by itself.
  predicate Local(e: Proc, p: nat, wl: Option<nat>, init: nat, n: nat) {
    && StateOk(e) && (Holds(e.pc) <==> wl == Some(p)) && (SelfLocked(e.pc) <==> e.plock)
    && (e.state == UNUSED ==> e == FREE) && (e.state == USED <==> e.forker.Some?)
    && (Living(e.state) || e.state == ZOMBIE ==> p == init || e.parent.Some?)
    && (e.state == ZOMBIE ==> e.xstate == e.passed)
    && (e.pc.Reparent? || e.pc.WakeInit? || e.pc.Exit3? ==> p != init && e.pc.st == e.passed)
    && (e.pc.Reparent? || e.pc.Scan? ==> e.pc.k <= n) && (e.pc.WakeInit? ==> e.pc.k < n)
    && (p == init ==> Living(e.state) && e.parent == None)
  }

  // A parent is alive.
  predicate ParentOk(s: State, p: nat)
    requires Is(s, p)
  {
    var e := s.procs[p];
    e.parent.Some? ==> e.parent.value < |s.procs| && e.parent.value != p && Living(s.procs[e.parent.value].state)
  }

  // A process being made has one maker.
  predicate ForkOk(s: State, p: nat)
    requires Is(s, p)
  {
    var e := s.procs[p];
    && (e.forker.Some? ==> e.forker.value < |s.procs|
                           && s.procs[e.forker.value].pc == (if e.parent.Some? then Fork2(p) else Fork1(p))
                              && (e.parent.Some? ==> e.parent == e.forker))
    && (e.pc.Fork1? || e.pc.Fork2? ==> e.pc.np < |s.procs| && e.pc.np != p && s.procs[e.pc.np].forker == Some(p))
  }

  // How far exit has come with giving away children.
  function Given(n: nat, pc: Pc): nat {
    match pc case Reparent(k, _) => k case WakeInit(k, _) => k + 1 case Exit3(_) => n case _ => 0
  }

  // How far wait has come without finding a zombie.
  function Seen(n: nat, pc: Pc): nat { match pc case Scan(k, _) => k case Wait3 => n case _ => 0 }

  // Asleep in wait, or bound to be.
  predicate Committed(e: Proc) { e.state == ASLEEP || e.pc.Wait4? }

  predicate Waking(s: State) { s.wl.Some? && s.wl.value < |s.procs| && s.procs[s.wl.value].pc.WakeInit? }

  // q is no child of p any more; or if it is, it is a zombie only while p will notice.
  predicate PairOk(e: Proc, f: Proc, p: nat, q: nat, n: nat, excused: bool) {
    && (q < Given(n, e.pc) ==> f.parent != Some(p))
    && (f.parent == Some(p) ==>
          && (q < Seen(n, e.pc) ==> f.state != ZOMBIE) && (f.pc.Exit3? ==> !Committed(e))
          && (Committed(e) && f.state == ZOMBIE ==> excused))
  }

  ghost predicate Inv(s: State) {
    && s.init < |s.procs| && (s.wl.Some? ==> s.wl.value < |s.procs|)
    && (forall p :: 0 <= p < |s.procs| ==> Local(s.procs[p], p, s.wl, s.init, |s.procs|))
    && (forall p :: 0 <= p < |s.procs| ==> ParentOk(s, p))
    && (forall p :: 0 <= p < |s.procs| ==> ForkOk(s, p))
    && (forall p, q :: 0 <= p < |s.procs| && 0 <= q < |s.procs| ==>
                         PairOk(s.procs[p], s.procs[q], p, q, |s.procs|, p == s.init && Waking(s)))
  }

  // ---------------------------------------------------------------- steps that change two processes

  // Only a, b and wait_lock changed, and wait_lock only for a and b.
  ghost predicate Only(s: State, s': State, a: nat, b: nat) {
    && Is(s, a) && Is(s, b) && |s'.procs| == |s.procs| && s'.init == s.init
    && (forall i :: 0 <= i < |s.procs| && i != a && i != b ==> s'.procs[i] == s.procs[i])
    && (s'.wl == s.wl || (s.wl in {None, Some(a), Some(b)} && s'.wl in {None, Some(a), Some(b)}))
  }

  lemma LocalKept(s: State, s': State, a: nat, b: nat)
    requires Inv(s) && Only(s, s', a, b) && Local(s'.procs[a], a, s'.wl, s'.init, |s.procs|)
             && Local(s'.procs[b], b, s'.wl, s'.init, |s.procs|)
    ensures forall p :: 0 <= p < |s'.procs| ==> Local(s'.procs[p], p, s'.wl, s'.init, |s'.procs|)
  {
    hide ParentOk, ForkOk, PairOk;
    forall p | 0 <= p < |s'.procs| ensures Local(s'.procs[p], p, s'.wl, s'.init, |s'.procs|) {
      assert Local(s.procs[p], p, s.wl, s.init, |s.procs|);
    }
  }

  lemma ParentsKept(s: State, s': State, a: nat, b: nat)
    requires Inv(s) && Only(s, s', a, b) && ParentOk(s', a) && ParentOk(s', b)
    requires forall q :: 0 <= q < |s.procs| && q != a && q != b && s.procs[q].parent == Some(a) ==>
                           Living(s'.procs[a].state)
    requires forall q :: 0 <= q < |s.procs| && q != a && q != b && s.procs[q].parent == Some(b) ==>
                           Living(s'.procs[b].state)
    ensures forall p :: 0 <= p < |s'.procs| ==> ParentOk(s', p)
  {
    hide Local, ForkOk, PairOk;
    forall p | 0 <= p < |s'.procs| ensures ParentOk(s', p) { assert ParentOk(s, p); }
  }

  lemma ForksKept(s: State, s': State, a: nat, b: nat)
    requires Inv(s) && Only(s, s', a, b) && ForkOk(s', a) && ForkOk(s', b)
    requires forall q :: 0 <= q < |s.procs| && q != a && q != b && s.procs[q].forker in {Some(a), Some(b)} ==>
                           ForkOk(s', q)
    requires forall q :: && 0 <= q < |s.procs| && q != a && q != b
                         && (s.procs[q].pc.Fork1? || s.procs[q].pc.Fork2?) && s.procs[q].pc.np in {a, b}
                         ==> ForkOk(s', q)
    ensures forall p :: 0 <= p < |s'.procs| ==> ForkOk(s', p)
  {
    hide Local, ParentOk, PairOk;
    forall p | 0 <= p < |s'.procs| ensures ForkOk(s', p) { assert ForkOk(s, p); }
  }

  // The pairs that a step can disturb are those with a or b in them.
  lemma PairsKept(s: State, s': State, a: nat, b: nat)
    requires Inv(s) && Only(s, s', a, b)
    requires Waking(s) && !Waking(s') ==> !Committed(s'.procs[s.init])
    requires forall q :: 0 <= q < |s.procs| ==> PairOk(s'.procs[a], s'.procs[q], a, q, |s.procs|, a == s.init
                                                       && Waking(s'))
    requires forall q :: 0 <= q < |s.procs| ==> PairOk(s'.procs[b], s'.procs[q], b, q, |s.procs|, b == s.init
                                                       && Waking(s'))
    requires forall p :: 0 <= p < |s.procs| ==> PairOk(s'.procs[p], s'.procs[a], p, a, |s.procs|, p == s.init
                                                       && Waking(s'))
    requires forall p :: 0 <= p < |s.procs| ==> PairOk(s'.procs[p], s'.procs[b], p, b, |s.procs|, p == s.init
                                                       && Waking(s'))
    ensures forall p, q :: 0 <= p < |s'.procs| && 0 <= q < |s'.procs| ==>
                             PairOk(s'.procs[p], s'.procs[q], p, q, |s'.procs|, p == s'.init && Waking(s'))
  {
    hide Local, ParentOk, ForkOk;
    forall p, q | 0 <= p < |s'.procs| && 0 <= q < |s'.procs|
      ensures PairOk(s'.procs[p], s'.procs[q], p, q, |s'.procs|, p == s'.init && Waking(s')) {
      assert PairOk(s.procs[p], s.procs[q], p, q, |s.procs|, p == s.init && Waking(s));
    }
  }

  // A change of one process that no pair can object to.
  predicate Milder(e: Proc, e': Proc, n: nat) {
    && Given(n, e'.pc) <= Given(n, e.pc) && Seen(n, e'.pc) <= Seen(n, e.pc) && (Committed(e') ==> Committed(e))
    && (e'.parent == e.parent || e'.parent == None) && (e'.pc.Exit3? ==> e.pc.Exit3?)
    && (e'.state == ZOMBIE ==> e.state == ZOMBIE)
  }

  lemma MilderPair(e: Proc, f: Proc, e': Proc, f': Proc, p: nat, q: nat, n: nat, x: bool, x': bool)
    requires PairOk(e, f, p, q, n, x) && Milder(e, e', n) && Milder(f, f', n) && (x ==> x' || !Committed(e'))
    ensures PairOk(e', f', p, q, n, x')
  {
  }

  lemma MilderPairs(s: State, s': State, a: nat, b: nat)
    requires Inv(s) && Only(s, s', a, b) && Milder(s.procs[a], s'.procs[a], |s.procs|)
             && Milder(s.procs[b], s'.procs[b], |s.procs|)
    requires Waking(s) && !Waking(s') ==> !Committed(s'.procs[s.init])
    ensures forall p, q :: 0 <= p < |s'.procs| && 0 <= q < |s'.procs| ==>
                             PairOk(s'.procs[p], s'.procs[q], p, q, |s'.procs|, p == s'.init && Waking(s'))
  {
    hide Local, ParentOk, ForkOk, PairOk, Waking, Committed, Given, Seen;
    forall p, q | 0 <= p < |s'.procs| && 0 <= q < |s'.procs|
      ensures PairOk(s'.procs[p], s'.procs[q], p, q, |s'.procs|, p == s'.init && Waking(s')) {
      MilderPair(s.procs[p], s.procs[q], s'.procs[p], s'.procs[q], p, q, |s.procs|, p == s.init
                 && Waking(s), p == s'.init && Waking(s'));
    }
  }

  lemma LocalOf(s: State, p: nat)
    requires Inv(s) && Is(s, p)
    ensures Local(s.procs[p], p, s.wl, s.init, |s.procs|) && ParentOk(s, p) && ForkOk(s, p)
  {
  }

  lemma PairOf(s: State, p: nat, q: nat)
    requires Inv(s) && Is(s, p) && Is(s, q)
    ensures PairOk(s.procs[p], s.procs[q], p, q, |s.procs|, p == s.init && Waking(s))
  {
  }

  // A step of p alone that neither kills it nor touches links, and that pairs do not mind.
  lemma Alone(s: State, s': State, p: nat)
    requires Inv(s) && Only(s, s', p, p) && Local(s'.procs[p], p, s'.wl, s'.init, |s.procs|)
             && Milder(s.procs[p], s'.procs[p], |s.procs|)
    requires s'.procs[p].parent == s.procs[p].parent && s'.procs[p].forker == s.procs[p].forker
             && (Living(s.procs[p].state) ==> Living(s'.procs[p].state))
    requires !s.procs[p].pc.Fork1? && !s.procs[p].pc.Fork2? && !s'.procs[p].pc.Fork1? && !s'.procs[p].pc.Fork2?
             && (s.wl == Some(p) ==> !s.procs[p].pc.WakeInit?)
    requires s'.wl == s.wl || s.wl in {None, Some(p)}
    ensures Inv(s')
  {
    hide Local, PairOk, Milder;
    LocalOf(s, p);
    LocalKept(s, s', p, p);
    NotForking(s, s', p);
    forall q | 0 <= q < |s.procs| && s.procs[q].parent == Some(p) ensures Living(s'.procs[p].state) { LocalOf(s, q); }
    ParentsKept(s, s', p, p);
    ForksKept(s, s', p, p);
    MilderPairs(s, s', p, p);
  }

  lemma NotForking(s: State, s': State, p: nat)
    requires Inv(s) && Only(s, s', p, p) && s'.procs[p].parent == s.procs[p].parent
             && s'.procs[p].forker == s.procs[p].forker
    requires !s.procs[p].pc.Fork1? && !s.procs[p].pc.Fork2? && !s'.procs[p].pc.Fork1? && !s'.procs[p].pc.Fork2?
    ensures forall q :: 0 <= q < |s.procs| ==> ForkOk(s', q)
    ensures ParentOk(s', p)
  {
    hide Local, PairOk;
    LocalOf(s, p);
    forall q | 0 <= q < |s.procs| ensures ForkOk(s', q) { assert ForkOk(s, q); }
  }

  // ---------------------------------------------------------------- each step

  lemma KillKeeps(s: State, q: nat)
    requires Inv(s) && CanKill(s, q)
    ensures Inv(DoKill(s, q))
  {
    hide PairOk;
    LocalOf(s, q);
    if s.procs[q].state == ASLEEP { Alone(s, DoKill(s, q), q); }
    else { assert DoKill(s, q) == s; }
  }

  lemma ExitKeeps(s: State, p: nat, st: int)
    requires Inv(s) && CanExit(s, p)
    ensures Inv(DoExit(s, p, st))
  {
    hide PairOk;
    LocalOf(s, p);
    Alone(s, DoExit(s, p, st), p);
  }

  lemma ReleaseKeeps(s: State, p: nat)
    requires Inv(s) && CanRelease(s, p)
    ensures Inv(DoRelease(s, p))
  {
    hide PairOk;
    LocalOf(s, p);
    Alone(s, DoRelease(s, p), p);
  }

  lemma SwitchKeeps(s: State, p: nat)
    requires Inv(s) && CanSwitch(s, p)
    ensures Inv(DoSwitch(s, p))
  {
    hide PairOk;
    LocalOf(s, p);
    Alone(s, DoSwitch(s, p), p);
  }

  lemma WaitKeeps(s: State, p: nat)
    requires Inv(s) && CanWait(s, p)
    ensures Inv(DoWait(s, p))
  {
    hide PairOk;
    LocalOf(s, p);
    Alone(s, DoWait(s, p), p);
  }

  lemma GiveUpKeeps(s: State, p: nat)
    requires Inv(s) && CanGiveUp(s, p)
    ensures Inv(DoGiveUp(s, p))
  {
    hide PairOk;
    LocalOf(s, p);
    Alone(s, DoGiveUp(s, p), p);
  }

  lemma SleepKeeps(s: State, p: nat)
    requires Inv(s) && CanSleep(s, p)
    ensures Inv(DoSleep(s, p))
  {
    hide PairOk;
    LocalOf(s, p);
    Alone(s, DoSleep(s, p), p);
  }

  lemma DozeKeeps(s: State, p: nat)
    requires Inv(s) && CanDoze(s, p)
    ensures Inv(DoDoze(s, p))
  {
    hide PairOk;
    LocalOf(s, p);
    Alone(s, DoDoze(s, p), p);
  }

  lemma ResumeKeeps(s: State, p: nat)
    requires Inv(s) && CanResume(s, p)
    ensures Inv(DoResume(s, p))
  {
    hide PairOk;
    LocalOf(s, p);
    Alone(s, DoResume(s, p), p);
  }

  lemma LookKeeps(s: State, p: nat)
    requires Inv(s) && CanLook(s, p)
    ensures Inv(DoLook(s, p))
  {
    LocalOf(s, p);
    var s', k := DoLook(s, p), s.procs[p].pc.k;
    hide Local;
    SoloKept(s, s', p);
    forall q | 0 <= q < |s.procs| ensures PairOk(s'.procs[p], s'.procs[q], p, q, |s.procs|, p == s.init && Waking(s')) {
      PairOf(s, p, q);
    }
    forall q | 0 <= q < |s.procs| ensures PairOk(s'.procs[q], s'.procs[p], q, p, |s.procs|, q == s.init && Waking(s')) {
      PairOf(s, q, p);
      PairOf(s, q, k);
    }
    PairsKept(s, s', p, p);
  }

  // The part of a step of p alone that does not concern pairs.
  lemma SoloKept(s: State, s': State, p: nat)
    requires Inv(s) && Only(s, s', p, p) && Local(s'.procs[p], p, s'.wl, s'.init, |s.procs|)
    requires s'.procs[p].parent == s.procs[p].parent && s'.procs[p].forker == s.procs[p].forker
    requires forall q :: 0 <= q < |s.procs| && s.procs[q].parent == Some(p) ==> Living(s'.procs[p].state)
    requires !s.procs[p].pc.Fork1? && !s.procs[p].pc.Fork2? && !s'.procs[p].pc.Fork1? && !s'.procs[p].pc.Fork2?
    ensures forall q :: 0 <= q < |s'.procs| ==> Local(s'.procs[q], q, s'.wl, s'.init, |s'.procs|)
    ensures forall q :: 0 <= q < |s'.procs| ==> ParentOk(s', q)
    ensures forall q :: 0 <= q < |s'.procs| ==> ForkOk(s', q)
  {
    hide Local, PairOk;
    LocalOf(s, p);
    LocalKept(s, s', p, p);
    NotForking(s, s', p);
    ParentsKept(s, s', p, p);
    ForksKept(s, s', p, p);
  }

  // wait found no zombie and holds wait_lock, so no child is one or about to be.
  lemma DropKeeps(s: State, p: nat)
    requires Inv(s) && CanDrop(s, p)
    ensures Inv(DoDrop(s, p))
  {
    LocalOf(s, p);
    var s' := DoDrop(s, p);
    SoloKept(s, s', p);
    forall q | 0 <= q < |s.procs| ensures PairOk(s'.procs[p], s'.procs[q], p, q, |s.procs|, p == s.init && Waking(s')) {
      PairOf(s, p, q);
      LocalOf(s, q);
    }
    forall q | 0 <= q < |s.procs| ensures PairOk(s'.procs[q], s'.procs[p], q, p, |s.procs|, q == s.init && Waking(s')) {
      PairOf(s, q, p);
    }
    PairsKept(s, s', p, p);
  }

  // All children were given away, and the parent was woken: p may die.
  lemma ZombieKeeps(s: State, p: nat)
    requires Inv(s) && CanZombie(s, p)
    ensures Inv(DoZombie(s, p))
  {
    LocalOf(s, p);
    var s' := DoZombie(s, p);
    forall q | 0 <= q < |s.procs| ensures s.procs[q].parent != Some(p) { PairOf(s, p, q); }
    SoloKept(s, s', p);
    forall q | 0 <= q < |s.procs| ensures PairOk(s'.procs[p], s'.procs[q], p, q, |s.procs|, p == s.init && Waking(s')) {
      PairOf(s, p, q);
    }
    forall q | 0 <= q < |s.procs| ensures PairOk(s'.procs[q], s'.procs[p], q, p, |s.procs|, q == s.init && Waking(s')) {
      PairOf(s, q, p);
      LocalOf(s, q);
    }
    PairsKept(s, s', p, p);
  }

  // ---------------------------------------------------------------- steps with a second process

  // b is not forking, and only a may be making it; a is making nobody else.
  predicate Close(s: State, a: nat, b: nat) {
    && Is(s, a) && Is(s, b) && a != b && !s.procs[b].pc.Fork1? && !s.procs[b].pc.Fork2?
    && s.procs[b].forker in {None, Some(a)}
    && (s.procs[a].pc.Fork1? || s.procs[a].pc.Fork2? ==> s.procs[a].pc.np == b)
  }

  // The links of a step that changes a and b.
  lemma LinksKept(s: State, s': State, a: nat, b: nat)
    requires Inv(s) && Only(s, s', a, b) && Close(s, a, b) && s'.procs[a].forker == s.procs[a].forker
    requires ParentOk(s', a) && ParentOk(s', b) && ForkOk(s', a) && ForkOk(s', b)
    requires Living(s.procs[a].state) ==> Living(s'.procs[a].state)
    requires Living(s.procs[b].state) ==> Living(s'.procs[b].state)
    ensures forall q :: 0 <= q < |s'.procs| ==> ParentOk(s', q)
    ensures forall q :: 0 <= q < |s'.procs| ==> ForkOk(s', q)
  {
    hide Local, PairOk;
    forall q | 0 <= q < |s'.procs| ensures ParentOk(s', q) { LocalOf(s, q); }
    forall q | 0 <= q < |s'.procs| ensures ForkOk(s', q) { if q != a && q != b { OtherFork(s, s', a, b, q); } }
  }

  lemma OtherFork(s: State, s': State, a: nat, b: nat, q: nat)
    requires Only(s, s', a, b) && Close(s, a, b) && s'.procs[a].forker == s.procs[a].forker && Is(s, q) && q != a
             && q != b && ForkOk(s, q)
    ensures ForkOk(s', q)
  {
  }

  lemma Duo(s: State, s': State, a: nat, b: nat)
    requires Inv(s) && Only(s, s', a, b) && Close(s, a, b) && s'.procs[a].forker == s.procs[a].forker
    requires ParentOk(s', a) && ParentOk(s', b) && ForkOk(s', a) && ForkOk(s', b)
    requires Living(s.procs[a].state) ==> Living(s'.procs[a].state)
    requires Living(s.procs[b].state) ==> Living(s'.procs[b].state)
    requires Local(s'.procs[a], a, s'.wl, s'.init, |s.procs|) && Local(s'.procs[b], b, s'.wl, s'.init, |s.procs|)
    requires Milder(s.procs[a], s'.procs[a], |s.procs|) && Milder(s.procs[b], s'.procs[b], |s.procs|)
    requires Waking(s) && !Waking(s') ==> !Committed(s'.procs[s.init])
    ensures Inv(s')
  {
    hide Local, PairOk, Milder, ParentOk, ForkOk, Waking, Close;
    LocalKept(s, s', a, b);
    LinksKept(s, s', a, b);
    MilderPairs(s, s', a, b);
    WlOk(s, s', a, b);
  }

  lemma WlOk(s: State, s': State, a: nat, b: nat)
    requires Inv(s) && Only(s, s', a, b)
    ensures s'.wl.Some? ==> s'.wl.value < |s'.procs|
  {
  }

  lemma Fork1Keeps(s: State, p: nat, np: nat)
    requires Inv(s) && CanFork1(s, p, np)
    ensures Inv(DoFork1(s, p, np))
  {
    hide PairOk;
    LocalOf(s, p);
    LocalOf(s, np);
    hide Inv;
    Duo(s, DoFork1(s, p, np), p, np);
  }

  lemma ForkFailKeeps(s: State, p: nat)
    requires Inv(s) && CanForkFail(s, p)
    ensures Inv(DoForkFail(s, p))
  {
    hide PairOk, Inv;
    LocalOf(s, p);
    LocalOf(s, s.procs[p].pc.np);
    Duo(s, DoForkFail(s, p), p, s.procs[p].pc.np);
  }

  lemma Fork3Keeps(s: State, p: nat)
    requires Inv(s) && CanFork3(s, p)
    ensures Inv(DoFork3(s, p))
  {
    hide PairOk, Inv;
    LocalOf(s, p);
    LocalOf(s, s.procs[p].pc.np);
    Duo(s, DoFork3(s, p), p, s.procs[p].pc.np);
  }

  // A zombie is freed by its parent, who holds wait_lock; it has no children.
  lemma FreeKeeps(s: State, p: nat)
    requires Inv(s) && Found(s, p)
    ensures Inv(DoFree(s, p))
  {
    hide PairOk, Inv;
    LocalOf(s, p);
    LocalOf(s, s.procs[p].pc.k);
    Duo(s, DoFree(s, p), p, s.procs[p].pc.k);
  }

  // ---------------------------------------------------------------- reparent and the wakeups

  // After wakeup(q), q is not asleep in wait nor about to be.
  lemma WokenUp(s: State, q: nat)
    requires Inv(s) && CanKill(s, q)
    ensures Inv(DoKill(s, q)) && !Committed(DoKill(s, q).procs[q])
  {
    hide PairOk;
    KillKeeps(s, q);
    LocalOf(s, q);
  }

  lemma WakeInitKeeps(s: State, p: nat)
    requires Inv(s) && CanWakeInit(s, p)
    ensures Inv(DoWakeInit(s, p))
  {
    hide PairOk;
    WokenUp(s, s.init);
    var s1, s' := DoKill(s, s.init), DoWakeInit(s, p);
    LocalOf(s1, p);
    forall q | 0 <= q < |s.procs| && s1.procs[q].parent == Some(p) ensures Living(s'.procs[p].state) { LocalOf(s1, q); }
    hide Inv;
    SoloKept(s1, s', p);
    MilderPairs(s1, s', p, p);
    InvOf(s1, s', p);
  }

  lemma InvOf(s: State, s': State, p: nat)
    requires Inv(s) && Only(s, s', p, p)
    requires forall q :: 0 <= q < |s'.procs| ==> Local(s'.procs[q], q, s'.wl, s'.init, |s'.procs|)
    requires forall q :: 0 <= q < |s'.procs| ==> ParentOk(s', q)
    requires forall q :: 0 <= q < |s'.procs| ==> ForkOk(s', q)
    requires forall x, y :: 0 <= x < |s'.procs| && 0 <= y < |s'.procs| ==>
                              PairOk(s'.procs[x], s'.procs[y], x, y, |s'.procs|, x == s'.init && Waking(s'))
    ensures Inv(s')
  {
    hide Local, ParentOk, ForkOk, PairOk;
  }

  lemma WakeParentKeeps(s: State, p: nat)
    requires Inv(s) && CanWakeParent(s, p)
    ensures Inv(DoWakeParent(s, p))
  {
    var b := s.procs[p].parent.value;
    WokenUp(s, b);
    var s1, s' := DoKill(s, b), DoWakeParent(s, p);
    LocalOf(s1, p);
    forall q | 0 <= q < |s.procs| && s1.procs[q].parent == Some(p) ensures Living(s'.procs[p].state) { LocalOf(s1, q); }
    hide Inv;
    SoloKept(s1, s', p);
    forall q | 0 <= q < |s.procs| ensures PairOk(s'.procs[p], s'.procs[q], p, q, |s.procs|, p == s.init && Waking(s')) {
      PairOf(s1, p, q);
    }
    forall q | 0 <= q < |s.procs| ensures PairOk(s'.procs[q], s'.procs[p], q, p, |s.procs|, q == s.init && Waking(s')) {
      PairOf(s1, q, p);
    }
    PairsKept(s1, s', p, p);
    InvOf(s1, s', p);
  }

  // Process k is no child of p.
  lemma SkipKeeps(s: State, p: nat)
    requires Inv(s) && CanReparent(s, p) && s.procs[s.procs[p].pc.k].parent != Some(p)
    ensures Inv(DoReparent(s, p))
  {
    hide Inv, ParentOk, ForkOk;
    var s', k := DoReparent(s, p), s.procs[p].pc.k;
    LocalOf(s, p);
    SoloKept(s, s', p);
    forall q | 0 <= q < |s.procs| ensures PairOk(s'.procs[p], s'.procs[q], p, q, |s.procs|, p == s.init && Waking(s')) {
      PairOf(s, p, q);
    }
    forall q | 0 <= q < |s.procs| ensures PairOk(s'.procs[q], s'.procs[p], q, p, |s.procs|, q == s.init && Waking(s')) {
      PairOf(s, q, p);
    }
    PairsKept(s, s', p, p);
    InvOf(s, s', p);
  }

  // Child k goes to init.  If it is a zombie and init is asleep, init is woken next.
  lemma GiveKeeps(s: State, p: nat)
    requires Inv(s) && CanReparent(s, p) && s.procs[s.procs[p].pc.k].parent == Some(p)
    ensures Inv(DoReparent(s, p))
  {
    hide PairOk, ParentOk, ForkOk, Inv;
    InitIs(s);
    var s', k := DoReparent(s, p), s.procs[p].pc.k;
    LocalOf(s, p);
    LocalOf(s, k);
    LocalOf(s, s.init);
    NotBeingMade(s, p, k);
    LocalKept(s, s', p, k);
    GiveLinks(s, p, k);
    GivePairs(s, p, k);
    WlOk(s, s', p, k);
    FourParts(s');
  }

  lemma FourParts(s: State)
    requires s.init < |s.procs| && (s.wl.Some? ==> s.wl.value < |s.procs|)
    requires forall q :: 0 <= q < |s.procs| ==> Local(s.procs[q], q, s.wl, s.init, |s.procs|)
    requires forall q :: 0 <= q < |s.procs| ==> ParentOk(s, q)
    requires forall q :: 0 <= q < |s.procs| ==> ForkOk(s, q)
    requires forall x, y :: 0 <= x < |s.procs| && 0 <= y < |s.procs| ==>
                              PairOk(s.procs[x], s.procs[y], x, y, |s.procs|, x == s.init && Waking(s))
    ensures Inv(s)
  {
    hide Local, ParentOk, ForkOk, PairOk;
  }

  // A child of an exiting process is not being made: its maker would be in fork.
  lemma NotBeingMade(s: State, p: nat, k: nat)
    requires Inv(s) && Is(s, p) && Is(s, k) && s.procs[p].pc.Reparent? && s.procs[k].parent == Some(p)
    ensures s.procs[k].forker == None && k != p
  {
    hide PairOk;
    LocalOf(s, k);
    LocalOf(s, p);
  }

  lemma GiveLinks(s: State, p: nat, k: nat)
    requires Inv(s) && CanReparent(s, p) && k == s.procs[p].pc.k && s.procs[k].parent == Some(p)
             && s.procs[k].forker == None && k != p && p != s.init && Living(s.procs[s.init].state)
    requires k != s.init && Is(s, s.init)
    ensures forall q :: 0 <= q < |s.procs| ==> ParentOk(DoReparent(s, p), q)
    ensures forall q :: 0 <= q < |s.procs| ==> ForkOk(DoReparent(s, p), q)
  {
    hide PairOk, Local;
    var s' := DoReparent(s, p);
    forall q | 0 <= q < |s.procs| ensures ParentOk(s', q) && ForkOk(s', q) { LocalOf(s, q); }
  }

  lemma GivePairs(s: State, p: nat, k: nat)
    requires Inv(s) && CanReparent(s, p) && k == s.procs[p].pc.k && s.procs[k].parent == Some(p) && k != p
             && p != s.init && s.wl == Some(p)
    requires !s.procs[k].pc.Exit3? && Given(|s.procs|, s.procs[s.init].pc) == 0
             && Seen(|s.procs|, s.procs[s.init].pc) == 0
    ensures var s' := DoReparent(s, p); forall x, y :: 0 <= x < |s'.procs| && 0 <= y < |s'.procs| ==>
                                                         PairOk(s'.procs[x], s'.procs[y], x, y, |s'.procs|,
                                                                x == s'.init && Waking(s'))
  {
    hide Local, ParentOk, ForkOk, Inv;
    var s' := DoReparent(s, p);
    forall x, y | 0 <= x < |s'.procs| && 0 <= y < |s'.procs|
      ensures PairOk(s'.procs[x], s'.procs[y], x, y, |s'.procs|, x == s'.init && Waking(s')) {
      PairOf(s, x, y);
    }
  }

  lemma Fork2Keeps(s: State, p: nat)
    requires Inv(s) && CanFork2(s, p)
    ensures Inv(DoFork2(s, p))
  {
    hide PairOk, Inv;
    var s', np := DoFork2(s, p), s.procs[p].pc.np;
    LocalOf(s, p);
    LocalOf(s, np);
    LocalKept(s, s', p, np);
    LinksKept(s, s', p, np);
    Fork2Pairs(s, p, np);
    WlOk(s, s', p, np);
    InitIs(s);
    FourParts(s');
  }

  lemma InitIs(s: State)
    requires Inv(s)
    ensures s.init < |s.procs|
  {
  }

  lemma Fork2Pairs(s: State, p: nat, np: nat)
    requires Inv(s) && CanFork2(s, p) && np == s.procs[p].pc.np && s.procs[np].state == USED && s.procs[np].pc == Off
    ensures var s' := DoFork2(s, p); forall x, y :: 0 <= x < |s'.procs| && 0 <= y < |s'.procs| ==>
                                                      PairOk(s'.procs[x], s'.procs[y], x, y, |s'.procs|, x == s'.init
                                                             && Waking(s'))
  {
    hide Local, ParentOk, ForkOk, Inv;
    var s' := DoFork2(s, p);
    forall x, y | 0 <= x < |s'.procs| && 0 <= y < |s'.procs|
      ensures PairOk(s'.procs[x], s'.procs[y], x, y, |s'.procs|, x == s'.init && Waking(s')) {
      PairOf(s, x, y);
    }
  }

  // ---------------------------------------------------------------- runs

  datatype Step =
    | SFork1(p: nat, np: nat) | SForkFail(p: nat) | SFork2(p: nat) | SFork3(p: nat)
    | SExit(p: nat, st: int) | SReparent(p: nat) | SWakeInit(p: nat) | SWakeParent(p: nat) | SZombie(p: nat)
    | SRelease(p: nat) | SSwitch(p: nat)
    | SWait(p: nat) | SLook(p: nat) | SFree(p: nat) | SGiveUp(p: nat) | SSleep(p: nat) | SDrop(p: nat) | SDoze(p: nat)
    | SResume(p: nat) | SKill(p: nat)

  ghost predicate ForkOrExit(s: State, e: Step, s': State) {
    match e
    case SFork1(p, np) => CanFork1(s, p, np) && s' == DoFork1(s, p, np)
    case SForkFail(p) => CanForkFail(s, p) && s' == DoForkFail(s, p)
    case SFork2(p) => CanFork2(s, p) && s' == DoFork2(s, p)
    case SFork3(p) => CanFork3(s, p) && s' == DoFork3(s, p)
    case SExit(p, st) => CanExit(s, p) && s' == DoExit(s, p, st)
    case SReparent(p) => CanReparent(s, p) && s' == DoReparent(s, p)
    case SWakeInit(p) => CanWakeInit(s, p) && s' == DoWakeInit(s, p)
    case SWakeParent(p) => CanWakeParent(s, p) && s' == DoWakeParent(s, p)
    case SZombie(p) => CanZombie(s, p) && s' == DoZombie(s, p)
    case SRelease(p) => CanRelease(s, p) && s' == DoRelease(s, p)
    case SSwitch(p) => CanSwitch(s, p) && s' == DoSwitch(s, p)
    case _ => false
  }

  ghost predicate WaitOrKill(s: State, e: Step, s': State) {
    match e
    case SWait(p) => CanWait(s, p) && s' == DoWait(s, p)
    case SLook(p) => CanLook(s, p) && s' == DoLook(s, p)
    case SFree(p) => Found(s, p) && s' == DoFree(s, p)
    case SGiveUp(p) => CanGiveUp(s, p) && s' == DoGiveUp(s, p)
    case SSleep(p) => CanSleep(s, p) && s' == DoSleep(s, p)
    case SDrop(p) => CanDrop(s, p) && s' == DoDrop(s, p)
    case SDoze(p) => CanDoze(s, p) && s' == DoDoze(s, p)
    case SResume(p) => CanResume(s, p) && s' == DoResume(s, p)
    case SKill(p) => CanKill(s, p) && s' == DoKill(s, p)
    case _ => false
  }

  ghost predicate Next(s: State, e: Step, s': State) { ForkOrExit(s, e, s') || WaitOrKill(s, e, s') }

  // Only init runs.
  ghost predicate Init(s: State) {
    && s.wl == None && s.init < |s.procs| && s.procs[s.init] == FREE.(state := ALIVE, pc := Normal)
    && forall p :: 0 <= p < |s.procs| && p != s.init ==> s.procs[p] == FREE
  }

  lemma ForkOrExitKeeps(s: State, e: Step, s': State)
    requires Inv(s) && ForkOrExit(s, e, s')
    ensures Inv(s')
  {
    hide Inv;
    match e
    case SFork1(p, np) => Fork1Keeps(s, p, np);
    case SForkFail(p) => ForkFailKeeps(s, p);
    case SFork2(p) => Fork2Keeps(s, p);
    case SFork3(p) => Fork3Keeps(s, p);
    case SExit(p, st) => ExitKeeps(s, p, st);
    case SReparent(p) => if s.procs[s.procs[p].pc.k].parent == Some(p) { GiveKeeps(s, p); } else { SkipKeeps(s, p); }
    case SWakeInit(p) => WakeInitKeeps(s, p);
    case SWakeParent(p) => WakeParentKeeps(s, p);
    case SZombie(p) => ZombieKeeps(s, p);
    case SRelease(p) => ReleaseKeeps(s, p);
    case SSwitch(p) => SwitchKeeps(s, p);
  }

  lemma WaitOrKillKeeps(s: State, e: Step, s': State)
    requires Inv(s) && WaitOrKill(s, e, s')
    ensures Inv(s')
  {
    hide Inv;
    match e
    case SWait(p) => WaitKeeps(s, p);
    case SLook(p) => LookKeeps(s, p);
    case SFree(p) => FreeKeeps(s, p);
    case SGiveUp(p) => GiveUpKeeps(s, p);
    case SSleep(p) => SleepKeeps(s, p);
    case SDrop(p) => DropKeeps(s, p);
    case SDoze(p) => DozeKeeps(s, p);
    case SResume(p) => ResumeKeeps(s, p);
    case SKill(p) => KillKeeps(s, p);
  }

  ghost predicate IsRun(states: seq<State>, steps: seq<Step>)
    ensures IsRun(states, steps) ==> |states| == |steps| + 1
  {
    |states| == |steps| + 1 && Init(states[0]) && forall k :: 0 <= k < |steps| ==>
                                                                Next(states[k], steps[k], states[k + 1])
  }

  lemma InitOk(s: State)
    requires Init(s)
    ensures Inv(s)
  {
  }

  lemma {:induction false} RunOk(states: seq<State>, steps: seq<Step>, n: nat)
    requires IsRun(states, steps) && n < |states|
    ensures Inv(states[n])
  {
    hide Inv, ForkOrExit, WaitOrKill;
    if n == 0 {
      InitOk(states[0]);
    } else {
      RunOk(states, steps, n - 1);
      var s, e, s' := states[n - 1], steps[n - 1], states[n];
      assert Next(states[n - 1], steps[n - 1], states[n - 1 + 1]);
      if ForkOrExit(s, e, s') { ForkOrExitKeeps(s, e, s'); } else { WaitOrKillKeeps(s, e, s'); }
    }
  }

  // ---------------------------------------------------------------- what every run guarantees

  // No parent pointer names a zombie or a slot that is not in use, and every zombie has a parent.
  lemma ParentsAreAlive(states: seq<State>, steps: seq<Step>, n: nat, p: nat)
    requires IsRun(states, steps) && n < |states| && Is(states[n], p)
    ensures var e := states[n].procs[p];
            && (e.parent.Some? ==> Is(states[n], e.parent.value) && Living(states[n].procs[e.parent.value].state))
            && (e.state == ZOMBIE ==> e.parent.Some?)
  {
    RunOk(states, steps, n);
    LocalOf(states[n], p);
  }

  // A slot stops being a zombie only when its parent, in wait, frees it: with the status it passed
  // to exit, and when it has left its kernel stack for good.
  lemma ZombieFreedByParent(states: seq<State>, steps: seq<Step>, n: nat, q: nat)
    requires IsRun(states, steps) && n < |steps| && Is(states[n], q) && states[n].procs[q].state == ZOMBIE
    requires Is(states[n + 1], q) && states[n + 1].procs[q].state != ZOMBIE
    ensures steps[n].SFree? && Found(states[n], steps[n].p) && states[n].procs[steps[n].p].pc.k == q
    ensures states[n].procs[q].parent == Some(steps[n].p)
            && Reported(states[n], steps[n].p) == states[n].procs[q].passed
    ensures states[n].procs[q].pc == Off && states[n + 1].procs[q] == FREE
  {
    RunOk(states, steps, n);
    var s, e, s' := states[n], steps[n], states[n + 1];
    assert Next(states[n], steps[n], states[n + 1]);
    LocalOf(s, q);
    LocalOf(s, e.p);
    hide Inv, PairOk;
    if ForkOrExit(s, e, s') { StillZombie(s, e, s', q); } else { OnlyFreed(s, e, s', q); }
  }

  lemma StillZombie(s: State, e: Step, s': State, q: nat)
    requires ForkOrExit(s, e, s') && Is(s, q) && s.procs[q].state == ZOMBIE
             && Local(s.procs[q], q, s.wl, s.init, |s.procs|) && Is(s, e.p)
                && Local(s.procs[e.p], e.p, s.wl, s.init, |s.procs|) && ForkOk(s, e.p)
    ensures s'.procs[q].state == ZOMBIE
  {
  }

  lemma OnlyFreed(s: State, e: Step, s': State, q: nat)
    requires WaitOrKill(s, e, s') && Is(s, q) && s.procs[q].state == ZOMBIE && s'.procs[q].state != ZOMBIE
             && Local(s.procs[q], q, s.wl, s.init, |s.procs|)
    requires Is(s, e.p) && Local(s.procs[e.p], e.p, s.wl, s.init, |s.procs|)
    ensures e.SFree? && s.procs[e.p].pc.k == q && s.procs[q].pc == Off && s'.procs[q] == FREE
  {
  }

  // Whenever wait_lock is free, nobody is asleep in wait while it has a zombie child.
  lemma NoSleeperWithZombie(states: seq<State>, steps: seq<Step>, n: nat, p: nat, q: nat)
    requires IsRun(states, steps) && n < |states| && states[n].wl == None && Is(states[n], p) && Is(states[n], q)
    requires states[n].procs[q].parent == Some(p) && states[n].procs[q].state == ZOMBIE
    ensures states[n].procs[p].state != ASLEEP && !states[n].procs[p].pc.Wait4?
  {
    RunOk(states, steps, n);
    PairOf(states[n], p, q);
  }

  // ---------------------------------------------------------------- who waits has children

  // One of the first k processes is a child of p.
  ghost predicate HasChild(s: State, p: nat, k: nat) {
    exists q :: 0 <= q < k && q < |s.procs| && s.procs[q].parent == Some(p)
  }

  // wait has seen a child exactly when there is one among those it looked at, and who sleeps has one.
  ghost predicate ChildOk(s: State, p: nat)
    requires Is(s, p)
  {
    match s.procs[p].pc
    case Scan(k, kids) => kids <==> HasChild(s, p, k)
    case Wait3 => HasChild(s, p, |s.procs|)
    case Wait4 => HasChild(s, p, |s.procs|)
    case Slept => HasChild(s, p, |s.procs|)
    case _ => true
  }

  // The children of p change only under wait_lock, and they become fewer only by what p does.
  lemma ChildStep(s: State, e: Step, s': State, p: nat, q: nat)
    requires Inv(s) && Next(s, e, s') && Is(s, p) && Is(s, q)
    ensures |s'.procs| == |s.procs|
    ensures s'.procs[q].parent != s.procs[q].parent ==>
              (s.wl == None || s.wl == Some(e.p)) && Is(s, e.p) && s'.procs[e.p].pc != s.procs[e.p].pc
    ensures s.procs[q].parent == Some(p) && s'.procs[q].parent != Some(p) ==>
              e.p == p && (s.procs[p].pc.Reparent? || s.procs[p].pc.Scan?)
  {
    Acts(s, e, s');
    LocalOf(s, e.p);
    LocalOf(s, q);
    hide Inv, ForkOrExit, WaitOrKill;
    if ForkOrExit(s, e, s') { ParentByFork(s, e, s', q); } else { ParentByWait(s, e, s', q); }
  }

  lemma Acts(s: State, e: Step, s': State)
    requires Next(s, e, s')
    ensures Is(s, e.p)
  {
  }

  lemma ParentByFork(s: State, e: Step, s': State, q: nat)
    requires ForkOrExit(s, e, s') && Is(s, q) && Is(s, e.p) && ForkOk(s, q) && ForkOk(s, e.p)
    requires Local(s.procs[q], q, s.wl, s.init, |s.procs|) && Local(s.procs[e.p], e.p, s.wl, s.init, |s.procs|)
    ensures |s'.procs| == |s.procs|
    ensures s'.procs[q].parent != s.procs[q].parent ==>
              && s'.procs[e.p].pc != s.procs[e.p].pc
              && (|| (e.SFork2? && s.wl == None && s.procs[q].parent == None)
                  || (s.procs[e.p].pc.Reparent? && s.wl == Some(e.p) && s.procs[q].parent == Some(e.p)))
  {
    if e.SForkFail? || e.SFork2? { assert Is(s, s.procs[e.p].pc.np) && ForkOk(s, e.p); }
  }

  lemma ParentByWait(s: State, e: Step, s': State, q: nat)
    requires WaitOrKill(s, e, s') && Is(s, q) && Is(s, e.p) && Local(s.procs[e.p], e.p, s.wl, s.init, |s.procs|)
    ensures |s'.procs| == |s.procs|
    ensures s'.procs[q].parent != s.procs[q].parent ==>
              s.procs[e.p].pc.Scan? && s.wl == Some(e.p) && s.procs[q].parent == Some(e.p)
              && s'.procs[e.p].pc != s.procs[e.p].pc
  {
  }

  // In wait, past its first step.
  predicate Waits(pc: Pc) { pc.Scan? || pc.Wait3? || pc.Wait4? || pc.Slept? }

  // How a process comes to its place in wait.
  predicate Moved(s: State, s': State, p: nat)
    requires Is(s, p) && Is(s', p)
  {
    var pc, pc' := s.procs[p].pc, s'.procs[p].pc;
    && s'.procs == s.procs[p := s'.procs[p]] && s'.procs[p].parent == s.procs[p].parent
    && match pc'
       case Scan(k, kids) =>
         || (k == 0 && !kids)
         || (k > 0 && pc.Scan? && pc.k == k - 1 < |s.procs| && (kids <==> pc.kids || s.procs[k - 1].parent == Some(p)))
       case Wait3 => pc == Scan(|s.procs|, true)
       case Wait4 => pc == Wait3
       case _ => pc == Wait4
  }

  lemma PlaceByFork(s: State, e: Step, s': State, p: nat)
    requires ForkOrExit(s, e, s') && Is(s, p)
    ensures Is(s', p) && |s'.procs| == |s.procs| && (s'.procs[p].pc != s.procs[p].pc ==> !Waits(s'.procs[p].pc))
  {
  }

  lemma PlaceByWait(s: State, e: Step, s': State, p: nat)
    requires WaitOrKill(s, e, s') && Is(s, p)
    ensures Is(s', p) && |s'.procs| == |s.procs|
    ensures s'.procs[p].pc != s.procs[p].pc && Waits(s'.procs[p].pc) ==> Moved(s, s', p)
  {
  }

  lemma PlaceStep(s: State, e: Step, s': State, p: nat)
    requires Next(s, e, s') && Is(s, p)
    ensures Is(s', p) && |s'.procs| == |s.procs|
    ensures s'.procs[p].pc != s.procs[p].pc && Waits(s'.procs[p].pc) ==> Moved(s, s', p)
  {
    hide ForkOrExit, WaitOrKill, Moved;
    if ForkOrExit(s, e, s') { PlaceByFork(s, e, s', p); } else { PlaceByWait(s, e, s', p); }
  }

  lemma SameChildren(s: State, s': State, p: nat, k: nat)
    requires |s'.procs| == |s.procs|
    requires forall q :: 0 <= q < |s.procs| && s.procs[q].parent == Some(p) ==> s'.procs[q].parent == Some(p)
    ensures HasChild(s, p, k) ==> HasChild(s', p, k)
  {
    if HasChild(s, p, k) {
      var q :| 0 <= q < k && q < |s.procs| && s.procs[q].parent == Some(p);
      assert s'.procs[q].parent == Some(p);
    }
  }

  lemma OneMoreSeen(s: State, p: nat, k: nat)
    requires k < |s.procs|
    ensures HasChild(s, p, k + 1) <==> HasChild(s, p, k) || s.procs[k].parent == Some(p)
  {
  }

  lemma ChildMoved(s: State, s': State, p: nat)
    requires Is(s, p) && Is(s', p) && |s'.procs| == |s.procs| && Waits(s'.procs[p].pc) && Moved(s, s', p)
             && ChildOk(s, p)
    ensures ChildOk(s', p)
  {
    hide HasChild;
    var pc' := s'.procs[p].pc;
    var k := if pc'.Scan? then pc'.k else |s.procs|;
    SameChildren(s, s', p, k);
    SameChildren(s', s, p, k);
    NoneSeen(s', p);
    if pc'.Scan? && k > 0 { OneMoreSeen(s, p, k - 1); }
  }

  lemma ChildStayed(s: State, s': State, p: nat)
    requires Is(s, p) && Is(s', p) && |s'.procs| == |s.procs| && s'.procs[p].pc == s.procs[p].pc && ChildOk(s, p)
    requires forall q :: 0 <= q < |s.procs| && s.procs[q].parent == Some(p) ==> s'.procs[q].parent == Some(p)
    requires Holds(s.procs[p].pc) ==>
               forall q :: 0 <= q < |s.procs| && s'.procs[q].parent == Some(p) ==> s.procs[q].parent == Some(p)
    ensures ChildOk(s', p)
  {
    hide HasChild;
    var pc := s.procs[p].pc;
    var k := if pc.Scan? then pc.k else |s.procs|;
    SameChildren(s, s', p, k);
    if Holds(pc) { SameChildren(s', s, p, k); }
  }

  lemma ChildKept(s: State, e: Step, s': State, p: nat)
    requires Inv(s) && Next(s, e, s') && Is(s, p) && ChildOk(s, p)
    ensures Is(s', p) && ChildOk(s', p)
  {
    LocalOf(s, p);
    hide Inv, Next, HasChild, Moved;
    PlaceStep(s, e, s', p);
    var pc := s.procs[p].pc;
    if Waits(s'.procs[p].pc) {
      if s'.procs[p].pc != pc {
        ChildMoved(s, s', p);
      } else {
        forall q | 0 <= q < |s.procs|
          ensures s.procs[q].parent == Some(p) ==> s'.procs[q].parent == Some(p)
          ensures Holds(pc) && s'.procs[q].parent == Some(p) ==> s.procs[q].parent == Some(p) {
          ChildStep(s, e, s', p, q);
        }
        ChildStayed(s, s', p);
      }
    }
  }

  lemma NoneSeen(s: State, p: nat)
    ensures !HasChild(s, p, 0)
  {
  }

  lemma {:induction false} ChildrenOk(states: seq<State>, steps: seq<Step>, n: nat, p: nat)
    requires IsRun(states, steps) && n < |states| && Is(states[n], p)
    ensures ChildOk(states[n], p)
  {
    hide Inv, Next, HasChild;
    if n > 0 {
      RunOk(states, steps, n - 1);
      assert Next(states[n - 1], steps[n - 1], states[n - 1 + 1]);
      SameCount(states[n - 1], steps[n - 1], states[n]);
      ChildrenOk(states, steps, n - 1, p);
      ChildKept(states[n - 1], steps[n - 1], states[n], p);
    }
  }

  lemma SameCount(s: State, e: Step, s': State)
    requires Next(s, e, s')
    ensures |s'.procs| == |s.procs|
  {
  }

  // wait goes to sleep, and stays asleep, only with a child to wait for; without one it can only give up.
  lemma WaiterHasChild(states: seq<State>, steps: seq<Step>, n: nat, p: nat)
    requires IsRun(states, steps) && n < |states| && Is(states[n], p)
    ensures var s := states[n];
            && (s.procs[p].state == ASLEEP || s.procs[p].pc.Wait3? || s.procs[p].pc.Wait4? ==>
                  HasChild(s, p, |s.procs|))
            && (s.procs[p].pc.Scan? && s.procs[p].pc.k == |s.procs| ==>
                  (CanSleep(s, p) <==> HasChild(s, p, |s.procs|)))
  {
    ChildrenOk(states, steps, n, p);
    RunOk(states, steps, n);
    LocalOf(states[n], p);
  }

  // wait returns -1 only when it has found a zombie, whose status it could not copy out, or when there
  // is none.
  lemma GivesUpWithoutZombie(states: seq<State>, steps: seq<Step>, n: nat, p: nat, q: nat)
    requires IsRun(states, steps) && n < |steps| && steps[n] == SGiveUp(p) && Is(states[n], p) && Is(states[n], q)
    requires states[n].procs[q].parent == Some(p) && states[n].procs[q].state == ZOMBIE
    ensures Found(states[n], p)
  {
    RunOk(states, steps, n);
    assert Next(states[n], steps[n], states[n + 1]);
    PairOf(states[n], p, q);
  }

  // ---------------------------------------------------------------- an orphan is reaped by init

  lemma Extend(states: seq<State>, steps: seq<Step>, e: Step, s': State)
    returns (states': seq<State>, steps': seq<Step>)
    requires IsRun(states, steps) && Next(states[|steps|], e, s')
    ensures states' == states + [s'] && steps' == steps + [e] && IsRun(states', steps')
  {
    states', steps' := states + [s'], steps + [e];
  }

  function Child(p: nat): Proc { FREE.(state := ALIVE, parent := Some(p), pc := Normal) }

  lemma Forks(states: seq<State>, steps: seq<Step>, p: nat, np: nat) returns (states': seq<State>, steps': seq<Step>)
    requires IsRun(states, steps) && var s := states[|steps|]; CanFork1(s, p, np) && s.wl == None && s.procs[np] == FREE
    ensures IsRun(states', steps') && states <= states' && states'[|steps'|] == Set(states[|steps|], np, Child(p))
  {
    hide IsRun;
    var s := states[|steps|];
    var s1 := DoFork1(s, p, np);
    states', steps' := Extend(states, steps, SFork1(p, np), s1);
    var s2 := DoFork2(s1, p);
    states', steps' := Extend(states', steps', SFork2(p), s2);
    var s3 := DoFork3(s2, p);
    states', steps' := Extend(states', steps', SFork3(p), s3);
    assert s3 == Set(s, np, Child(p));
  }

  // exit looks at the processes from k on, none of which is a child.
  lemma {:induction false} NoChildren(states: seq<State>, steps: seq<Step>, p: nat, k: nat, st: int)
    returns (states': seq<State>, steps': seq<Step>)
    requires IsRun(states, steps) && var s := states[|steps|];
             Is(s, p) && s.procs[p].pc == Reparent(k, st) && k <= |s.procs|
    requires forall i :: k <= i < |states[|steps|].procs| ==> states[|steps|].procs[i].parent != Some(p)
    ensures IsRun(states', steps') && states <= states'
    ensures var s := states[|steps|]; states'[|steps'|] == Set(s, p, s.procs[p].(pc := Reparent(|s.procs|, st)))
    decreases |states[|steps|].procs| - k
  {
    hide IsRun;
    var s := states[|steps|];
    if k == |s.procs| {
      states', steps' := states, steps;
      assert Set(s, p, s.procs[p]) == s;
    } else {
      var s1 := DoReparent(s, p);
      states', steps' := Extend(states, steps, SReparent(p), s1);
      assert s1 == Set(s, p, s.procs[p].(pc := Reparent(k + 1, st)));
      states', steps' := NoChildren(states', steps', p, k + 1, st);
    }
  }

  // The end of exit.
  lemma Dies(states: seq<State>, steps: seq<Step>, p: nat) returns (states': seq<State>, steps': seq<Step>)
    requires IsRun(states, steps) && var s := states[|steps|]; CanWakeParent(s, p) && !s.procs[p].plock
    ensures IsRun(states', steps') && states <= states'
    ensures var s := states[|steps|]; var q := s.procs[p].parent.value;
            states'[|steps'|] == Set(Set(s, q, Wake(s.procs[q])), p,
                                     s.procs[p].(state := ZOMBIE, xstate := s.procs[p].pc.st, pc := Off)).(wl := None)
  {
    hide IsRun;
    var s := states[|steps|];
    var s1 := DoWakeParent(s, p);
    states', steps' := Extend(states, steps, SWakeParent(p), s1);
    var s2 := DoZombie(s1, p);
    states', steps' := Extend(states', steps', SZombie(p), s2);
    var s3 := DoRelease(s2, p);
    states', steps' := Extend(states', steps', SRelease(p), s3);
    var s4 := DoSwitch(s3, p);
    states', steps' := Extend(states', steps', SSwitch(p), s4);
  }

  const INIT: Proc := FREE.(state := ALIVE, pc := Normal)

  // A zombie that passed st to exit.
  function Dead(p: nat, st: int): Proc { FREE.(state := ZOMBIE, parent := Some(p), xstate := st, passed := st) }

  // init makes 1, which makes 2, which exits.
  lemma GrandchildDies(st: int) returns (states: seq<State>, steps: seq<Step>)
    ensures IsRun(states, steps) && states[|steps|] == State(None, 0, [INIT, Child(0), Dead(1, st)])
  {
    var s := State(None, 0, [INIT, FREE, FREE]);
    states, steps := [s], [];
    assert IsRun(states, steps);
    hide IsRun;
    states, steps := Forks(states, steps, 0, 1);
    states, steps := Forks(states, steps, 1, 2);
    assert states[|steps|] == State(None, 0, [INIT, Child(0), Child(1)]);
    var s1 := DoExit(states[|steps|], 2, st);
    states, steps := Extend(states, steps, SExit(2, st), s1);
    states, steps := NoChildren(states, steps, 2, 0, st);
    states, steps := Dies(states, steps, 2);
  }

  // 1 exits, and gives its zombie to init.
  lemma ChildDies(st: int) returns (states: seq<State>, steps: seq<Step>, n: nat)
    ensures IsRun(states, steps) && states[|steps|] == State(None, 0, [INIT, Dead(0, 0), Dead(0, st)])
    ensures n < |steps| && states[n] == State(None, 0, [INIT, Child(0), Dead(1, st)])
  {
    states, steps := GrandchildDies(st);
    hide IsRun;
    n := |steps|;
    ghost var first := states;
    var s1 := DoExit(states[|steps|], 1, 0);
    states, steps := Extend(states, steps, SExit(1, 0), s1);
    var s2 := DoReparent(s1, 1);
    states, steps := Extend(states, steps, SReparent(1), s2);
    var s3 := DoReparent(s2, 1);
    states, steps := Extend(states, steps, SReparent(1), s3);
    states, steps := GivesAway(states, steps, 1, 2);
    assert states[n] == first[n];
    assert states[|steps|].procs[1] == s3.procs[1].(pc := Reparent(3, 0));
    states, steps := Dies(states, steps, 1);
    assert states[n] == first[n];
  }

  lemma GivesAway(states: seq<State>, steps: seq<Step>, p: nat, k: nat) returns (states': seq<State>, steps': seq<Step>)
    requires IsRun(states, steps) && var s := states[|steps|];
             Is(s, p) && Is(s, k) && k != p && s.procs[p].pc.Reparent? && s.procs[p].pc.k == k
             && s.procs[k].parent == Some(p)
    requires var s := states[|steps|]; Is(s, s.init) && s.init != p && s.init != k && s.procs[s.init].state == ALIVE
                                       && !s.procs[s.init].plock
    ensures IsRun(states', steps') && states <= states'
    ensures var s := states[|steps|]; states'[|steps'|] == Set(Set(s, k, s.procs[k].(parent := Some(s.init))), p,
                                                               s.procs[p].(pc := Reparent(k + 1, s.procs[p].pc.st)))
  {
    hide IsRun;
    var s := states[|steps|];
    var s1 := DoReparent(s, p);
    states', steps' := Extend(states, steps, SReparent(p), s1);
    var s2 := DoWakeInit(s1, p);
    states', steps' := Extend(states', steps', SWakeInit(p), s2);
  }

  // init waits and frees process 1, a zombie.
  lemma ReapsFirst(states: seq<State>, steps: seq<Step>, e: Proc) returns (states': seq<State>, steps': seq<Step>)
    requires IsRun(states, steps) && states[|steps|] == State(None, 0, [INIT, Dead(0, 0), e])
    ensures IsRun(states', steps') && states <= states' && states'[|steps'|] == State(None, 0, [INIT, FREE, e])
  {
    hide IsRun;
    var s1 := DoWait(states[|steps|], 0);
    states', steps' := Extend(states, steps, SWait(0), s1);
    var s2 := DoLook(s1, 0);
    states', steps' := Extend(states', steps', SLook(0), s2);
    var s3 := DoFree(s2, 0);
    states', steps' := Extend(states', steps', SFree(0), s3);
  }

  // A process whose parent exited before it was waited for is freed by init, with its own status.
  lemma OrphanReaped(st: int) returns (states: seq<State>, steps: seq<Step>, n: nat, m: nat)
    ensures IsRun(states, steps) && n < m < |steps| && Is(states[n], 2) && states[n].procs[2] == Dead(1, st)
    ensures steps[m] == SFree(0) && Found(states[m], 0) && states[m].procs[0].pc.k == 2 && Reported(states[m], 0) == st
  {
    states, steps, n := ChildDies(st);
    hide IsRun;
    ghost var first := states;
    states, steps := ReapsFirst(states, steps, Dead(0, st));
    assert states[n] == first[n];
    var s1 := DoWait(states[|steps|], 0);
    states, steps := Extend(states, steps, SWait(0), s1);
    var s2 := DoLook(s1, 0);
    states, steps := Extend(states, steps, SLook(0), s2);
    var s3 := DoLook(s2, 0);
    states, steps := Extend(states, steps, SLook(0), s3);
    m := |steps|;
    states, steps := Extend(states, steps, SFree(0), DoFree(s3, 0));
    assert states[n] == first[n] && states[m] == s3;
  }

  // init has one child and waits: it goes to sleep.
  lemma FallsAsleep() returns (states: seq<State>, steps: seq<Step>)
    ensures IsRun(states, steps)
    ensures states[|steps|] == State(None, 0, [INIT.(state := ASLEEP, pc := Slept), Child(0)])
  {
    var s := State(None, 0, [INIT, FREE]);
    states, steps := [s], [];
    assert IsRun(states, steps);
    hide IsRun;
    states, steps := Forks(states, steps, 0, 1);
    assert states[|steps|] == State(None, 0, [INIT, Child(0)]);
    states, steps := Scans(states, steps);
    states, steps := Sleeps(states, steps, 0);
  }

  // init looks at both processes.
  lemma Scans(states: seq<State>, steps: seq<Step>) returns (states': seq<State>, steps': seq<Step>)
    requires IsRun(states, steps) && states[|steps|] == State(None, 0, [INIT, Child(0)])
    ensures IsRun(states', steps') && states <= states'
    ensures states'[|steps'|] == State(Some(0), 0, [INIT.(pc := Scan(2, true)), Child(0)])
  {
    hide IsRun;
    var s1 := DoWait(states[|steps|], 0);
    states', steps' := Extend(states, steps, SWait(0), s1);
    var s2 := DoLook(s1, 0);
    states', steps' := Extend(states', steps', SLook(0), s2);
    var s3 := DoLook(s2, 0);
    states', steps' := Extend(states', steps', SLook(0), s3);
  }

  // sleep(p, &wait_lock) at the end of a scan.
  lemma Sleeps(states: seq<State>, steps: seq<Step>, p: nat) returns (states': seq<State>, steps': seq<Step>)
    requires IsRun(states, steps) && CanSleep(states[|steps|], p)
    ensures IsRun(states', steps') && states <= states'
    ensures var s := states[|steps|];
            states'[|steps'|] == Set(s, p, s.procs[p].(state := ASLEEP, plock := false, pc := Slept)).(wl := None)
  {
    hide IsRun;
    var s := states[|steps|];
    var s1 := DoSleep(s, p);
    states', steps' := Extend(states, steps, SSleep(p), s1);
    var s2 := DoDrop(s1, p);
    states', steps' := Extend(states', steps', SDrop(p), s2);
    var s3 := DoDoze(s2, p);
    states', steps' := Extend(states', steps', SDoze(p), s3);
  }

  // A parent asleep in wait is woken by its child's exit and frees it with its status.
  lemma SleeperReaps(st: int) returns (states: seq<State>, steps: seq<Step>, n: nat, m: nat)
    ensures IsRun(states, steps) && n < m < |steps| && Is(states[n], 0) && states[n].procs[0].state == ASLEEP
    ensures steps[m] == SFree(0) && Found(states[m], 0) && Reported(states[m], 0) == st
  {
    states, steps := FallsAsleep();
    hide IsRun;
    n := |steps|;
    ghost var first := states;
    var s1 := DoExit(states[|steps|], 1, st);
    states, steps := Extend(states, steps, SExit(1, st), s1);
    states, steps := NoChildren(states, steps, 1, 0, st);
    states, steps := Dies(states, steps, 1);
    assert states[|steps|] == State(None, 0, [INIT.(pc := Slept), Dead(0, st)]);
    var s2 := DoResume(states[|steps|], 0);
    states, steps := Extend(states, steps, SResume(0), s2);
    var s3 := DoWait(s2, 0);
    states, steps := Extend(states, steps, SWait(0), s3);
    var s4 := DoLook(s3, 0);
    states, steps := Extend(states, steps, SLook(0), s4);
    m := |steps|;
    states, steps := Extend(states, steps, SFree(0), DoFree(s4, 0));
    assert states[n] == first[n] && states[m] == s4;
  }
}
