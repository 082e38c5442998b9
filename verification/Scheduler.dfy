/** Scheduling and context switches (kernel/proc.c, kernel/spinlock.c) as the steps of any number
    of CPUs over any number of processes, interleaved in any order. */
module Scheduler {
  import opened Params

  datatype PState = UNUSED | USED | SLEEPING | RUNNABLE | RUNNING | ZOMBIE

  // A process's saved registers: complete, being written by swtch, or out of date because the
  // process is running.
  datatype Context = Full | Partial | Live

  // Why a thread takes its own p->lock: in yield, sleep and exit, or only to look, as in killed.
  datatype Why = Yield | Sleep | Exit | Check

  // Where the kernel thread of a running process is: outside sched; holding its own p->lock;
  // the same, with its state changed; just back from sched or in forkret.  one says that the other
  // lock, which sleep was given and exit has taken, is still to be released.
  datatype Pc = Normal | Locked(why: Why, one: bool) | Changed(why: Why, one: bool) | Resumed

  // What a CPU executes: its scheduler thread (Idle, Checked, Back), a process, or swtch in one
  // direction or the other; saved says whether swtch has stored all registers.
  datatype At = Idle | Checked(p: nat) | Leaving(p: nat, saved: bool) | Run(p: nat, pc: Pc)
      | Entering(p: nat, saved: bool) | Back(p: nat)

  // cproc is c->proc; other counts the locks besides the p->locks that the running thread holds;
  // env is another process whose p->lock it holds, as in wakeup, kill, fork and wait.
  datatype Cpu = Cpu(at: At, cproc: Option<nat>, noff: nat, intr: bool, other: nat, env: Option<nat>)

  // runner is the CPU on the process's kernel stack.
  datatype Proc = Proc(state: PState, lock: Option<nat>, ctx: Context, runner: Option<nat>)

  datatype State = State(cpus: seq<Cpu>, procs: seq<Proc>)

  predicate IsCpu(s: State, c: nat) { c < |s.cpus| }

  predicate IsProc(s: State, p: nat) { p < |s.procs| }

  function SetCpu(s: State, c: nat, v: Cpu): State
    requires IsCpu(s, c)
  {
    s.(cpus := s.cpus[c := v])
  }

  function SetProc(s: State, p: nat, v: Proc): State
    requires IsProc(s, p)
  {
    s.(procs := s.procs[p := v])
  }

  // push_off in acquire and pop_off in release; on is whether interrupts were enabled before.
  function Off(k: Cpu): Cpu { k.(noff := k.noff + 1, intr := false) }

  function Pop(k: Cpu, on: bool): Cpu { k.(noff := if k.noff > 0 then k.noff - 1 else 0, intr := k.noff == 1 && on) }

  // ---------------------------------------------------------------- the scheduler thread

  // The scheduler takes p->lock.
  predicate CanLook(s: State, c: nat, p: nat) {
    IsCpu(s, c) && IsProc(s, p) && s.cpus[c].at == Idle && s.procs[p].lock == None
  }

  function Look(s: State, c: nat, p: nat): State
    requires IsCpu(s, c) && IsProc(s, p)
  {
    SetProc(SetCpu(s, c, Off(s.cpus[c]).(at := Checked(p))), p, s.procs[p].(lock := Some(c)))
  }

  // p is not RUNNABLE: release its lock.
  predicate CanSkip(s: State, c: nat) {
    IsCpu(s, c) && s.cpus[c].at.Checked? && IsProc(s, s.cpus[c].at.p) && s.procs[s.cpus[c].at.p].state != RUNNABLE
  }

  function Skip(s: State, c: nat, on: bool): State
    requires IsCpu(s, c) && s.cpus[c].at.Checked? && IsProc(s, s.cpus[c].at.p)
  {
    var p := s.cpus[c].at.p;
    SetProc(SetCpu(s, c, Pop(s.cpus[c], on).(at := Idle)), p, s.procs[p].(lock := None))
  }

  // p is RUNNABLE: mark it RUNNING and call swtch.
  predicate CanPick(s: State, c: nat) {
    IsCpu(s, c) && s.cpus[c].at.Checked? && IsProc(s, s.cpus[c].at.p) && s.procs[s.cpus[c].at.p].state == RUNNABLE
  }

  function Pick(s: State, c: nat): State
    requires IsCpu(s, c) && s.cpus[c].at.Checked? && IsProc(s, s.cpus[c].at.p)
  {
    var p := s.cpus[c].at.p;
    SetProc(SetCpu(s, c, s.cpus[c].(at := Leaving(p, false), cproc := Some(p))), p, s.procs[p].(state := RUNNING))
  }

  // swtch stores the scheduler's registers ...
  predicate CanStore(s: State, c: nat) { IsCpu(s, c) && s.cpus[c].at.Leaving? && !s.cpus[c].at.saved }

  function Store(s: State, c: nat): State
    requires IsCpu(s, c) && s.cpus[c].at.Leaving?
  {
    SetCpu(s, c, s.cpus[c].(at := Leaving(s.cpus[c].at.p, true)))
  }

  // ... and loads those of p, which runs from here on.
  predicate CanEnter(s: State, c: nat) {
    IsCpu(s, c) && s.cpus[c].at.Leaving? && s.cpus[c].at.saved && IsProc(s, s.cpus[c].at.p)
  }

  function Enter(s: State, c: nat): State
    requires IsCpu(s, c) && s.cpus[c].at.Leaving? && IsProc(s, s.cpus[c].at.p)
  {
    var p := s.cpus[c].at.p;
    SetProc(SetCpu(s, c, s.cpus[c].(at := Run(p, Resumed))), p, s.procs[p].(ctx := Live, runner := Some(c)))
  }

  // Back in the scheduler: c->proc = 0 and release p->lock.
  predicate CanDone(s: State, c: nat) { IsCpu(s, c) && s.cpus[c].at.Back? && IsProc(s, s.cpus[c].at.p) }

  function Done(s: State, c: nat, on: bool): State
    requires IsCpu(s, c) && s.cpus[c].at.Back? && IsProc(s, s.cpus[c].at.p)
  {
    var p := s.cpus[c].at.p;
    SetProc(SetCpu(s, c, Pop(s.cpus[c], on).(at := Idle, cproc := None)), p, s.procs[p].(lock := None))
  }

  // ---------------------------------------------------------------- the running process

  predicate Running(s: State, c: nat, pc: Pc) {
    IsCpu(s, c) && s.cpus[c].at.Run? && s.cpus[c].at.pc == pc && IsProc(s, s.cpus[c].at.p)
  }

  function Mine(s: State, c: nat): nat
    requires IsCpu(s, c) && !s.cpus[c].at.Idle?
  {
    s.cpus[c].at.p
  }

  predicate InThread(s: State, c: nat) { IsCpu(s, c) && s.cpus[c].at.Run? && IsProc(s, s.cpus[c].at.p) }

  // What yield, sleep and exit start from: a trap that found interrupts enabled, the one lock that
  // sleep is given, and wait_lock.
  predicate Called(k: Cpu, why: Why) {
    match why
    case Yield => k.noff == 0
    case Sleep => k.other == 1
    case Exit => k.other == 1
    case Check => true
  }

  // acquire(&p->lock) in yield, sleep, exit and killed.
  predicate CanLockSelf(s: State, c: nat, why: Why) {
    Running(s, c, Normal) && s.procs[Mine(s, c)].lock == None && s.cpus[c].env == None && Called(s.cpus[c], why)
  }

  function LockSelf(s: State, c: nat, why: Why): State
    requires Running(s, c, Normal)
  {
    SetProc(SetCpu(s, c, Off(s.cpus[c]).(at := Run(Mine(s, c), Locked(why, why in {Sleep, Exit})))), Mine(s, c),
            s.procs[Mine(s, c)].(lock := Some(c)))
  }

  // release(&p->lock), in killed and after sched.
  predicate CanUnlockSelf(s: State, c: nat) {
    Running(s, c, Resumed) || (InThread(s, c) && s.cpus[c].at.pc.Locked? && s.cpus[c].at.pc.why == Check)
  }

  function UnlockSelf(s: State, c: nat, on: bool): State
    requires CanUnlockSelf(s, c)
  {
    SetProc(SetCpu(s, c, Pop(s.cpus[c], on).(at := Run(Mine(s, c), Normal))), Mine(s, c),
            s.procs[Mine(s, c)].(lock := None))
  }

  // acquire and release of a lock that is no p->lock.
  predicate CanTake(s: State, c: nat) { Running(s, c, Normal) }

  function Take(s: State, c: nat): State
    requires IsCpu(s, c)
  {
    SetCpu(s, c, Off(s.cpus[c]).(other := s.cpus[c].other + 1))
  }

  // Outside sched; in sleep before the state changes; in exit after that.
  predicate CanDrop(s: State, c: nat) {
    InThread(s, c) && s.cpus[c].at.pc in {Normal, Locked(Sleep, true), Changed(Exit, true)} && s.cpus[c].other > 0
  }

  function Dropped(pc: Pc): Pc {
    match pc
    case Normal => Normal
    case Locked(why, _) => Locked(why, false)
    case Changed(why, _) => Changed(why, false)
    case Resumed => Resumed
  }

  function Drop(s: State, c: nat, on: bool): State
    requires InThread(s, c) && s.cpus[c].other > 0
  {
    SetCpu(s, c, Pop(s.cpus[c], on).(other := s.cpus[c].other - 1, at := Run(Mine(s, c), Dropped(s.cpus[c].at.pc))))
  }

  // The process changes its state, in yield, sleep or exit.
  predicate CanChange(s: State, c: nat, st: PState) {
    InThread(s, c) && (s.cpus[c].at.pc, st) in {(Locked(Yield, false), RUNNABLE), (Locked(Sleep, false), SLEEPING),
                                                (Locked(Exit, true), ZOMBIE)}
  }

  function Change(s: State, c: nat, st: PState): State
    requires InThread(s, c) && s.cpus[c].at.pc.Locked?
  {
    var pc := s.cpus[c].at.pc;
    SetProc(SetCpu(s, c, s.cpus[c].(at := Run(Mine(s, c), Changed(pc.why, pc.one)))), Mine(s, c),
            s.procs[Mine(s, c)].(state := st))
  }

  // sched: swtch begins to store the process's registers.
  predicate CanSched(s: State, c: nat) { InThread(s, c) && s.cpus[c].at.pc.Changed? && !s.cpus[c].at.pc.one }

  function Sched(s: State, c: nat): State
    requires InThread(s, c)
  {
    SetProc(SetCpu(s, c, s.cpus[c].(at := Entering(Mine(s, c), false))), Mine(s, c),
            s.procs[Mine(s, c)].(ctx := Partial))
  }

  // The registers are all stored ...
  predicate CanSaved(s: State, c: nat) {
    IsCpu(s, c) && s.cpus[c].at.Entering? && !s.cpus[c].at.saved && IsProc(s, s.cpus[c].at.p)
  }

  function Saved(s: State, c: nat): State
    requires IsCpu(s, c) && s.cpus[c].at.Entering? && IsProc(s, s.cpus[c].at.p)
  {
    SetProc(SetCpu(s, c, s.cpus[c].(at := Entering(Mine(s, c), true))), Mine(s, c), s.procs[Mine(s, c)].(ctx := Full))
  }

  // ... and those of the scheduler are loaded.
  predicate CanReturn(s: State, c: nat) {
    IsCpu(s, c) && s.cpus[c].at.Entering? && s.cpus[c].at.saved && IsProc(s, s.cpus[c].at.p)
  }

  function Return(s: State, c: nat): State
    requires IsCpu(s, c) && s.cpus[c].at.Entering? && IsProc(s, s.cpus[c].at.p)
  {
    SetProc(SetCpu(s, c, s.cpus[c].(at := Back(Mine(s, c)))), Mine(s, c), s.procs[Mine(s, c)].(runner := None))
  }

  // ---------------------------------------------------------------- one process acts on another

  // acquire(&q->lock) in allocproc, wakeup, kill, fork and wait.
  predicate CanGrab(s: State, c: nat, q: nat) {
    Running(s, c, Normal) && IsProc(s, q) && q != Mine(s, c) && s.procs[q].lock == None && s.cpus[c].env == None
  }

  function Grab(s: State, c: nat, q: nat): State
    requires IsCpu(s, c) && IsProc(s, q)
  {
    SetProc(SetCpu(s, c, Off(s.cpus[c]).(env := Some(q))), q, s.procs[q].(lock := Some(c)))
  }

  predicate Grabbed(s: State, c: nat) { Running(s, c, Normal) && s.cpus[c].env.Some? && IsProc(s, s.cpus[c].env.value) }

  // What a process may do to the state of another: allocproc, freeproc, fork, wakeup and kill.
  predicate CanAct(s: State, c: nat, st: PState) {
    Grabbed(s, c) && (s.procs[s.cpus[c].env.value].state, st) in {(UNUSED, USED), (USED, UNUSED), (USED, RUNNABLE),
                                                                  (SLEEPING, RUNNABLE), (ZOMBIE, UNUSED)}
  }

  // allocproc also sets up a context that starts in forkret.
  function Act(s: State, c: nat, st: PState): State
    requires Grabbed(s, c)
  {
    var q := s.cpus[c].env.value;
    SetProc(s, q, s.procs[q].(state := st, ctx := if st == USED then Full else s.procs[q].ctx))
  }

  predicate CanUngrab(s: State, c: nat) { Grabbed(s, c) }

  function Ungrab(s: State, c: nat, on: bool): State
    requires Grabbed(s, c)
  {
    var q := s.cpus[c].env.value;
    SetProc(SetCpu(s, c, Pop(s.cpus[c], on).(env := None)), q, s.procs[q].(lock := None))
  }

  // ---------------------------------------------------------------- the invariant

  // The CPU is on p's kernel stack.
  predicate OnStack(k: Cpu, p: nat) { (k.at.Run? || k.at.Entering?) && k.at.p == p }

  // The CPU holds p->lock as scheduler of p or as p itself.
  predicate HoldsAs(k: Cpu, p: nat) { !k.at.Idle? && k.at.p == p && k.at != Run(p, Normal) }

  function B(b: bool): nat { if b then 1 else 0 }

  // The current process of a CPU.
  function Current(at: At): Option<nat> {
    match at
    case Idle => None
    case Checked(_) => None
    case Leaving(p, _) => Some(p)
    case Run(p, _) => Some(p)
    case Entering(p, _) => Some(p)
    case Back(p) => Some(p)
  }

  ghost predicate CpuOk(s: State, c: nat)
    requires IsCpu(s, c)
  {
    var k := s.cpus[c];
    && k.noff == B(!k.at.Idle? && !(k.at.Run? && k.at.pc == Normal)) + k.other + B(k.env.Some?)
    && (k.noff > 0 ==> !k.intr)
    && (!k.at.Run? ==> k.other == 0) && (!(k.at.Run? && k.at.pc == Normal) ==> k.env == None)
    && (k.at.Run? && k.at.pc == Resumed ==> k.other == 0)
    && (k.at.Run? && (k.at.pc.Changed? || (k.at.pc.Locked? && k.at.pc.why != Check)) ==> k.other == B(k.at.pc.one))
    && (!k.at.Idle? ==> IsProc(s, k.at.p))
    && (k.env.Some? ==> IsProc(s, k.env.value) && s.procs[k.env.value].lock == Some(c) && k.env.value != k.at.p)
    && k.cproc == Current(k.at)
    && (!k.at.Idle? ==> AtOk(s.procs[k.at.p], k.at, c))
  }

  // What the CPU's position says about the process it deals with.
  predicate AtOk(e: Proc, at: At, c: nat) {
    match at
    case Idle => true
    case Checked(_) => e.lock == Some(c)
    case Leaving(_, _) => e.lock == Some(c) && e.state == RUNNING && e.ctx == Full && e.runner == None
    case Run(_, pc) => e.runner == Some(c) && e.ctx == Live
        && (if pc == Normal then e.lock != Some(c) else e.lock == Some(c)) && (e.state == RUNNING <==> !pc.Changed?)
           && (pc.Changed? ==> e.state in {RUNNABLE, SLEEPING, ZOMBIE})
    case Entering(_, saved) => e.runner == Some(c) && e.lock == Some(c) && e.state in {RUNNABLE, SLEEPING, ZOMBIE}
        && e.ctx == (if saved then Full else Partial)
    case Back(_) => e.lock == Some(c) && e.runner == None && e.state in {RUNNABLE, SLEEPING, ZOMBIE} && e.ctx == Full
  }

  ghost predicate ProcOk(s: State, p: nat)
    requires IsProc(s, p)
  {
    var e := s.procs[p];
    && (e.runner.Some? ==> IsCpu(s, e.runner.value) && OnStack(s.cpus[e.runner.value], p))
    && (e.lock.Some? ==> IsCpu(s, e.lock.value) && (HoldsAs(s.cpus[e.lock.value], p)
                                                    || s.cpus[e.lock.value].env == Some(p)))
    && (e.runner == None && e.state != RUNNING && e.state != UNUSED ==> e.ctx == Full)
    && (e.state == RUNNING && e.runner == None ==>
          e.lock.Some? && s.cpus[e.lock.value].at.Leaving? && s.cpus[e.lock.value].at.p == p)
    && (e.runner.Some? && e.state != RUNNING ==> e.lock == e.runner)
  }

  ghost predicate Inv(s: State) {
    (forall c :: 0 <= c < |s.cpus| ==> CpuOk(s, c)) && forall p :: 0 <= p < |s.procs| ==> ProcOk(s, p)
  }

  // ---------------------------------------------------------------- every step keeps it

  // CPU c does for process q, other than the one that changes, what it did before.
  predicate SameFor(k: Cpu, k': Cpu, q: nat) {
    && (OnStack(k, q) ==> OnStack(k', q)) && (HoldsAs(k, q) ==> HoldsAs(k', q))
    && (k.env == Some(q) ==> k'.env == Some(q))
    && (k.at.Leaving? && k.at.p == q ==> k'.at.Leaving? && k'.at.p == q)
  }

  // CPU d, which does not move, agrees with the new state of p.
  predicate StillOk(k: Cpu, e: Proc, p: nat, d: nat) {
    (!k.at.Idle? && k.at.p == p ==> AtOk(e, k.at, d)) && (k.env == Some(p) ==> e.lock == Some(d))
  }

  lemma Keeps(s: State, s': State, c: nat, p: nat, k: Cpu, e: Proc)
    requires Inv(s) && IsCpu(s, c) && IsProc(s, p) && s' == SetProc(SetCpu(s, c, k), p, e) && CpuOk(s', c)
             && ProcOk(s', p)
    requires forall q :: 0 <= q < |s.procs| && q != p ==> SameFor(s.cpus[c], k, q)
    requires forall d :: 0 <= d < |s.cpus| && d != c ==> StillOk(s.cpus[d], e, p, d)
    ensures Inv(s')
  {
    forall d | 0 <= d < |s'.cpus| ensures CpuOk(s', d) {
      if d != c { assert CpuOk(s, d) && StillOk(s.cpus[d], e, p, d); }
    }
    forall q | 0 <= q < |s'.procs| ensures ProcOk(s', q) {
      if q != p { assert ProcOk(s, q) && SameFor(s.cpus[c], k, q); }
    }
  }

  // Whoever deals with p while c holds p->lock, or while nobody does, is p itself at large.
  lemma AtLarge(s: State, c: nat, p: nat, d: nat)
    requires Inv(s) && IsCpu(s, c) && IsCpu(s, d) && IsProc(s, p) && d != c && s.procs[p].lock in {None, Some(c)}
    ensures s.cpus[d].env != Some(p) && (!s.cpus[d].at.Idle? && s.cpus[d].at.p == p ==>
                                           s.cpus[d].at == Run(p, Normal) && s.procs[p].runner == Some(d)
                                           && s.procs[p].state == RUNNING && s.procs[p].ctx == Live)
  {
    assert CpuOk(s, d);
  }

  lemma LookKeeps(s: State, c: nat, p: nat)
    requires Inv(s) && CanLook(s, c, p)
    ensures Inv(Look(s, c, p))
  {
    assert CpuOk(s, c) && ProcOk(s, p);
    var s' := Look(s, c, p);
    forall d | 0 <= d < |s.cpus| && d != c ensures StillOk(s.cpus[d], s'.procs[p], p, d) { AtLarge(s, c, p, d); }
    Keeps(s, s', c, p, s'.cpus[c], s'.procs[p]);
  }

  lemma SkipKeeps(s: State, c: nat, on: bool)
    requires Inv(s) && CanSkip(s, c)
    ensures Inv(Skip(s, c, on))
  {
    var p := s.cpus[c].at.p;
    assert CpuOk(s, c) && ProcOk(s, p);
    var s' := Skip(s, c, on);
    forall d | 0 <= d < |s.cpus| && d != c ensures StillOk(s.cpus[d], s'.procs[p], p, d) { AtLarge(s, c, p, d); }
    Keeps(s, s', c, p, s'.cpus[c], s'.procs[p]);
  }

  lemma PickKeeps(s: State, c: nat)
    requires Inv(s) && CanPick(s, c)
    ensures Inv(Pick(s, c))
  {
    var p := s.cpus[c].at.p;
    assert CpuOk(s, c) && ProcOk(s, p);
    var s' := Pick(s, c);
    forall d | 0 <= d < |s.cpus| && d != c ensures StillOk(s.cpus[d], s'.procs[p], p, d) { AtLarge(s, c, p, d); }
    Keeps(s, s', c, p, s'.cpus[c], s'.procs[p]);
  }

  lemma StoreKeeps(s: State, c: nat)
    requires Inv(s) && CanStore(s, c)
    ensures Inv(Store(s, c))
  {
    var p := s.cpus[c].at.p;
    assert CpuOk(s, c) && ProcOk(s, p);
    var s' := Store(s, c);
    assert s' == SetProc(SetCpu(s, c, s'.cpus[c]), p, s.procs[p]);
    forall d | 0 <= d < |s.cpus| && d != c ensures StillOk(s.cpus[d], s'.procs[p], p, d) {
      AtLarge(s, c, p, d);
      assert CpuOk(s, d);
    }
    Keeps(s, s', c, p, s'.cpus[c], s'.procs[p]);
  }

  lemma EnterKeeps(s: State, c: nat)
    requires Inv(s) && CanEnter(s, c)
    ensures Inv(Enter(s, c))
  {
    var p := s.cpus[c].at.p;
    assert CpuOk(s, c) && ProcOk(s, p);
    var s' := Enter(s, c);
    forall d | 0 <= d < |s.cpus| && d != c ensures StillOk(s.cpus[d], s'.procs[p], p, d) { AtLarge(s, c, p, d); }
    Keeps(s, s', c, p, s'.cpus[c], s'.procs[p]);
  }

  lemma DoneKeeps(s: State, c: nat, on: bool)
    requires Inv(s) && CanDone(s, c)
    ensures Inv(Done(s, c, on))
  {
    var p := s.cpus[c].at.p;
    assert CpuOk(s, c) && ProcOk(s, p);
    var s' := Done(s, c, on);
    forall d | 0 <= d < |s.cpus| && d != c ensures StillOk(s.cpus[d], s'.procs[p], p, d) { AtLarge(s, c, p, d); }
    Keeps(s, s', c, p, s'.cpus[c], s'.procs[p]);
  }

  lemma LockSelfKeeps(s: State, c: nat, why: Why)
    requires Inv(s) && CanLockSelf(s, c, why)
    ensures Inv(LockSelf(s, c, why))
  {
    var p := Mine(s, c);
    assert CpuOk(s, c) && ProcOk(s, p);
    var s' := LockSelf(s, c, why);
    forall d | 0 <= d < |s.cpus| && d != c ensures StillOk(s.cpus[d], s'.procs[p], p, d) { AtLarge(s, c, p, d); }
    Keeps(s, s', c, p, s'.cpus[c], s'.procs[p]);
  }

  lemma UnlockSelfKeeps(s: State, c: nat, on: bool)
    requires Inv(s) && CanUnlockSelf(s, c)
    ensures Inv(UnlockSelf(s, c, on))
  {
    var p := Mine(s, c);
    assert CpuOk(s, c) && ProcOk(s, p);
    var s' := UnlockSelf(s, c, on);
    forall d | 0 <= d < |s.cpus| && d != c ensures StillOk(s.cpus[d], s'.procs[p], p, d) { AtLarge(s, c, p, d); }
    Keeps(s, s', c, p, s'.cpus[c], s'.procs[p]);
  }

  // A step that changes only the running thread's count of other locks.
  lemma CountKeeps(s: State, c: nat, k: Cpu)
    requires Inv(s) && IsCpu(s, c) && s.cpus[c].at.Run? && k.at.Run? && k.at.p == s.cpus[c].at.p
             && (k.at.pc == Normal <==> s.cpus[c].at.pc == Normal)
    requires k.env == s.cpus[c].env && CpuOk(SetCpu(s, c, k), c)
    ensures Inv(SetCpu(s, c, k))
  {
    var p := s.cpus[c].at.p;
    assert CpuOk(s, c) && ProcOk(s, p);
    var s' := SetCpu(s, c, k);
    assert s' == SetProc(SetCpu(s, c, k), p, s.procs[p]);
    forall d | 0 <= d < |s.cpus| && d != c ensures StillOk(s.cpus[d], s.procs[p], p, d) { assert CpuOk(s, d); }
    Keeps(s, s', c, p, k, s.procs[p]);
  }

  lemma TakeKeeps(s: State, c: nat)
    requires Inv(s) && CanTake(s, c)
    ensures Inv(Take(s, c))
  {
    assert CpuOk(s, c);
    CountKeeps(s, c, Take(s, c).cpus[c]);
  }

  lemma DropKeeps(s: State, c: nat, on: bool)
    requires Inv(s) && CanDrop(s, c)
    ensures Inv(Drop(s, c, on))
  {
    assert CpuOk(s, c);
    CountKeeps(s, c, Drop(s, c, on).cpus[c]);
  }

  lemma ChangeKeeps(s: State, c: nat, st: PState)
    requires Inv(s) && CanChange(s, c, st)
    ensures Inv(Change(s, c, st))
  {
    var p := Mine(s, c);
    assert CpuOk(s, c) && ProcOk(s, p);
    var s' := Change(s, c, st);
    forall d | 0 <= d < |s.cpus| && d != c ensures StillOk(s.cpus[d], s'.procs[p], p, d) { AtLarge(s, c, p, d); }
    Keeps(s, s', c, p, s'.cpus[c], s'.procs[p]);
  }

  lemma SchedKeeps(s: State, c: nat)
    requires Inv(s) && CanSched(s, c)
    ensures Inv(Sched(s, c))
  {
    var p := Mine(s, c);
    assert CpuOk(s, c) && ProcOk(s, p);
    var s' := Sched(s, c);
    forall d | 0 <= d < |s.cpus| && d != c ensures StillOk(s.cpus[d], s'.procs[p], p, d) { AtLarge(s, c, p, d); }
    Keeps(s, s', c, p, s'.cpus[c], s'.procs[p]);
  }

  lemma SavedKeeps(s: State, c: nat)
    requires Inv(s) && CanSaved(s, c)
    ensures Inv(Saved(s, c))
  {
    var p := Mine(s, c);
    assert CpuOk(s, c) && ProcOk(s, p);
    var s' := Saved(s, c);
    forall d | 0 <= d < |s.cpus| && d != c ensures StillOk(s.cpus[d], s'.procs[p], p, d) { AtLarge(s, c, p, d); }
    Keeps(s, s', c, p, s'.cpus[c], s'.procs[p]);
  }

  lemma ReturnKeeps(s: State, c: nat)
    requires Inv(s) && CanReturn(s, c)
    ensures Inv(Return(s, c))
  {
    var p := Mine(s, c);
    assert CpuOk(s, c) && ProcOk(s, p);
    var s' := Return(s, c);
    forall d | 0 <= d < |s.cpus| && d != c ensures StillOk(s.cpus[d], s'.procs[p], p, d) { AtLarge(s, c, p, d); }
    Keeps(s, s', c, p, s'.cpus[c], s'.procs[p]);
  }

  lemma GrabKeeps(s: State, c: nat, q: nat)
    requires Inv(s) && CanGrab(s, c, q)
    ensures Inv(Grab(s, c, q))
  {
    assert CpuOk(s, c) && ProcOk(s, q);
    var s' := Grab(s, c, q);
    forall d | 0 <= d < |s.cpus| && d != c ensures StillOk(s.cpus[d], s'.procs[q], q, d) { AtLarge(s, c, q, d); }
    Keeps(s, s', c, q, s'.cpus[c], s'.procs[q]);
  }

  lemma ActKeeps(s: State, c: nat, st: PState)
    requires Inv(s) && CanAct(s, c, st)
    ensures Inv(Act(s, c, st))
  {
    var q := s.cpus[c].env.value;
    assert CpuOk(s, c) && ProcOk(s, q);
    var s' := Act(s, c, st);
    assert s' == SetProc(SetCpu(s, c, s.cpus[c]), q, s'.procs[q]);
    forall d | 0 <= d < |s.cpus| && d != c ensures StillOk(s.cpus[d], s'.procs[q], q, d) { AtLarge(s, c, q, d); }
    Keeps(s, s', c, q, s'.cpus[c], s'.procs[q]);
  }

  lemma UngrabKeeps(s: State, c: nat, on: bool)
    requires Inv(s) && CanUngrab(s, c)
    ensures Inv(Ungrab(s, c, on))
  {
    var q := s.cpus[c].env.value;
    assert CpuOk(s, c) && ProcOk(s, q);
    var s' := Ungrab(s, c, on);
    forall d | 0 <= d < |s.cpus| && d != c ensures StillOk(s.cpus[d], s'.procs[q], q, d) { AtLarge(s, c, q, d); }
    Keeps(s, s', c, q, s'.cpus[c], s'.procs[q]);
  }

  // ---------------------------------------------------------------- runs

  datatype Step =
    | SLook(c: nat, p: nat) | SSkip(c: nat, on: bool) | SPick(c: nat) | SStore(c: nat) | SEnter(c: nat)
    | SDone(c: nat, on: bool)
    | SLockSelf(c: nat, why: Why) | SUnlockSelf(c: nat, on: bool) | STake(c: nat) | SDrop(c: nat, on: bool)
    | SChange(c: nat, st: PState)
    | SSched(c: nat) | SSaved(c: nat) | SReturn(c: nat) | SGrab(c: nat, q: nat) | SAct(c: nat, st: PState)
    | SUngrab(c: nat, on: bool)

  ghost predicate SchedulerStep(s: State, e: Step, s': State) {
    match e
    case SLook(c, p) => CanLook(s, c, p) && s' == Look(s, c, p)
    case SSkip(c, on) => CanSkip(s, c) && s' == Skip(s, c, on)
    case SPick(c) => CanPick(s, c) && s' == Pick(s, c)
    case SStore(c) => CanStore(s, c) && s' == Store(s, c)
    case SEnter(c) => CanEnter(s, c) && s' == Enter(s, c)
    case SDone(c, on) => CanDone(s, c) && s' == Done(s, c, on)
    case _ => false
  }

  ghost predicate ThreadStep(s: State, e: Step, s': State) {
    match e
    case SLockSelf(c, why) => CanLockSelf(s, c, why) && s' == LockSelf(s, c, why)
    case SUnlockSelf(c, on) => CanUnlockSelf(s, c) && s' == UnlockSelf(s, c, on)
    case STake(c) => CanTake(s, c) && s' == Take(s, c)
    case SDrop(c, on) => CanDrop(s, c) && s' == Drop(s, c, on)
    case SChange(c, st) => CanChange(s, c, st) && s' == Change(s, c, st)
    case SSched(c) => CanSched(s, c) && s' == Sched(s, c)
    case SSaved(c) => CanSaved(s, c) && s' == Saved(s, c)
    case SReturn(c) => CanReturn(s, c) && s' == Return(s, c)
    case SGrab(c, q) => CanGrab(s, c, q) && s' == Grab(s, c, q)
    case SAct(c, st) => CanAct(s, c, st) && s' == Act(s, c, st)
    case SUngrab(c, on) => CanUngrab(s, c) && s' == Ungrab(s, c, on)
    case _ => false
  }

  ghost predicate Next(s: State, e: Step, s': State) { SchedulerStep(s, e, s') || ThreadStep(s, e, s') }

  lemma SchedulerKeeps(s: State, e: Step, s': State)
    requires Inv(s) && SchedulerStep(s, e, s')
    ensures Inv(s')
  {
    hide Inv;
    match e
    case SLook(c, p) => LookKeeps(s, c, p);
    case SSkip(c, on) => SkipKeeps(s, c, on);
    case SPick(c) => PickKeeps(s, c);
    case SStore(c) => StoreKeeps(s, c);
    case SEnter(c) => EnterKeeps(s, c);
    case SDone(c, on) => DoneKeeps(s, c, on);
  }

  lemma ThreadKeeps(s: State, e: Step, s': State)
    requires Inv(s) && ThreadStep(s, e, s')
    ensures Inv(s')
  {
    hide Inv;
    match e
    case SLockSelf(c, why) => LockSelfKeeps(s, c, why);
    case SUnlockSelf(c, on) => UnlockSelfKeeps(s, c, on);
    case STake(c) => TakeKeeps(s, c);
    case SDrop(c, on) => DropKeeps(s, c, on);
    case SChange(c, st) => ChangeKeeps(s, c, st);
    case SSched(c) => SchedKeeps(s, c);
    case SSaved(c) => SavedKeeps(s, c);
    case SReturn(c) => ReturnKeeps(s, c);
    case SGrab(c, q) => GrabKeeps(s, c, q);
    case SAct(c, st) => ActKeeps(s, c, st);
    case SUngrab(c, on) => UngrabKeeps(s, c, on);
  }

  // After userinit: every CPU is in its scheduler and every process is UNUSED, or RUNNABLE with
  // a context that starts in forkret.
  ghost predicate Init(s: State) {
    && (forall c :: 0 <= c < |s.cpus| ==> s.cpus[c].at == Idle && s.cpus[c].cproc == None && s.cpus[c].noff == 0
                                          && s.cpus[c].other == 0 && s.cpus[c].env == None)
    && (forall p :: 0 <= p < |s.procs| ==> s.procs[p].lock == None && s.procs[p].runner == None
                                           && (s.procs[p].state == UNUSED
                                               || (s.procs[p].state == RUNNABLE && s.procs[p].ctx == Full)))
  }

  ghost predicate IsRun(states: seq<State>, steps: seq<Step>)
    ensures IsRun(states, steps) ==> |states| == |steps| + 1
  {
    |states| == |steps| + 1 && Init(states[0]) && forall k :: 0 <= k < |steps| ==>
                                                                Next(states[k], steps[k], states[k + 1])
  }

  lemma {:induction false} RunOk(states: seq<State>, steps: seq<Step>, n: nat)
    requires IsRun(states, steps) && n < |states|
    ensures Inv(states[n])
  {
    if n > 0 {
      hide Inv, SchedulerStep, ThreadStep;
      RunOk(states, steps, n - 1);
      var s, e, s' := states[n - 1], steps[n - 1], states[n];
      assert Next(states[n - 1], steps[n - 1], states[n - 1 + 1]);
      if SchedulerStep(s, e, s') { SchedulerKeeps(s, e, s'); } else { ThreadKeeps(s, e, s'); }
    }
  }

  // ---------------------------------------------------------------- what every run guarantees

  // At most one CPU executes on a process's kernel stack.
  lemma OneCpuPerProcess(states: seq<State>, steps: seq<Step>, n: nat, c: nat, d: nat, p: nat)
    requires IsRun(states, steps) && n < |states| && IsCpu(states[n], c) && IsCpu(states[n], d)
    requires OnStack(states[n].cpus[c], p) && OnStack(states[n].cpus[d], p)
    ensures c == d
  {
    RunOk(states, steps, n);
    assert CpuOk(states[n], c) && CpuOk(states[n], d);
  }

  // A context is loaded only when it has been completely saved, and never while another CPU is
  // still on the process's stack.
  lemma LoadedContextIsSaved(states: seq<State>, steps: seq<Step>, n: nat, c: nat)
    requires IsRun(states, steps) && n < |states| && CanEnter(states[n], c)
    ensures var p := states[n].cpus[c].at.p;
            && states[n].procs[p].ctx == Full && states[n].procs[p].lock == Some(c)
            && forall d :: 0 <= d < |states[n].cpus| ==> !OnStack(states[n].cpus[d], p)
  {
    RunOk(states, steps, n);
    assert CpuOk(states[n], c);
    forall d | 0 <= d < |states[n].cpus| ensures !OnStack(states[n].cpus[d], states[n].cpus[c].at.p) {
      assert CpuOk(states[n], d);
    }
  }

  // A process that comes back from sched holds its lock, on whichever CPU it now is, and that
  // CPU knows it as its current process.
  lemma ResumedHoldsLock(states: seq<State>, steps: seq<Step>, n: nat, c: nat)
    requires IsRun(states, steps) && n < |states| && Running(states[n], c, Resumed)
    ensures states[n].procs[Mine(states[n], c)].lock == Some(c) && states[n].cpus[c].cproc == Some(Mine(states[n], c))
            && states[n].procs[Mine(states[n], c)].state == RUNNING
  {
    RunOk(states, steps, n);
    assert CpuOk(states[n], c);
  }

  // sched never panics: p->lock is held, it is the only lock, the state has been changed, and
  // interrupts are off.
  lemma SchedNeverPanics(states: seq<State>, steps: seq<Step>, n: nat, c: nat)
    requires IsRun(states, steps) && n < |states| && CanSched(states[n], c)
    ensures var p := Mine(states[n], c);
            states[n].procs[p].lock == Some(c) && states[n].cpus[c].noff == 1 && states[n].procs[p].state != RUNNING
            && !states[n].cpus[c].intr
  {
    RunOk(states, steps, n);
    assert CpuOk(states[n], c);
  }

  // release never panics: a CPU gives up only locks it holds, with interrupts off.
  lemma ReleaseNeverPanics(states: seq<State>, steps: seq<Step>, n: nat, c: nat)
    requires IsRun(states, steps) && n < |states| && IsCpu(states[n], c)
    ensures var s := states[n];
            && (CanSkip(s, c) || CanDone(s, c) || CanUnlockSelf(s, c) ==>
                  s.procs[s.cpus[c].at.p].lock == Some(c) && s.cpus[c].noff >= 1 && !s.cpus[c].intr)
            && (CanUngrab(s, c) ==> s.procs[s.cpus[c].env.value].lock == Some(c) && s.cpus[c].noff >= 1
                                    && !s.cpus[c].intr)
            && (CanDrop(s, c) ==> s.cpus[c].noff >= 1 && !s.cpus[c].intr)
  {
    RunOk(states, steps, n);
    assert CpuOk(states[n], c);
  }

  // A slot is freed only when no CPU is on its kernel stack.
  lemma FreedSlotIsQuiet(states: seq<State>, steps: seq<Step>, n: nat, c: nat, d: nat)
    requires IsRun(states, steps) && n < |states| && CanAct(states[n], c, UNUSED) && IsCpu(states[n], d)
    ensures !OnStack(states[n].cpus[d], states[n].cpus[c].env.value)
  {
    RunOk(states, steps, n);
    var q := states[n].cpus[c].env.value;
    assert CpuOk(states[n], c) && ProcOk(states[n], q) && CpuOk(states[n], d);
  }

  // ---------------------------------------------------------------- the life of a process

  // The state of a process changes only from RUNNABLE to RUNNING, from RUNNING by its own yield,
  // sleep or exit, or because another process acts on it.
  lemma StateStep(s: State, e: Step, s': State, p: nat)
    requires Inv(s) && Next(s, e, s') && IsProc(s, p)
    ensures IsProc(s', p)
    ensures var was, now := s.procs[p].state, s'.procs[p].state;
            || was == now
            || (was == RUNNABLE && now == RUNNING)
            || (was == RUNNING && now in {RUNNABLE, SLEEPING, ZOMBIE})
            || (ActsOn(s, e, p) && e.st == now
                && (was, now) in {(UNUSED, USED), (USED, UNUSED), (USED, RUNNABLE), (SLEEPING, RUNNABLE),
                                  (ZOMBIE, UNUSED)})
  {
    if e.SChange? { assert CpuOk(s, e.c); }
  }

  // Step e is that of a CPU whose process acts on p.
  predicate ActsOn(s: State, e: Step, p: nat) { e.SAct? && IsCpu(s, e.c) && s.cpus[e.c].env == Some(p) }

  lemma {:induction false} ProcsStay(states: seq<State>, steps: seq<Step>, n: nat)
    requires IsRun(states, steps) && n < |states|
    ensures |states[n].procs| == |states[0].procs|
  {
    if n > 0 {
      ProcsStay(states, steps, n - 1);
      assert Next(states[n - 1], steps[n - 1], states[n - 1 + 1]);
    }
  }

  ghost function StateAt(states: seq<State>, n: nat, p: nat): PState
    requires n < |states| && IsProc(states[n], p)
  {
    states[n].procs[p].state
  }

  // The first step after m at which the state of p is another one.
  lemma {:induction false} FirstChange(states: seq<State>, steps: seq<Step>, m: nat, n: nat, p: nat) returns (k: nat)
    requires IsRun(states, steps) && m <= n < |states| && IsProc(states[m], p) && IsProc(states[n], p)
    requires StateAt(states, m, p) != StateAt(states, n, p)
    ensures m <= k < n && IsProc(states[k], p) && IsProc(states[k + 1], p)
    ensures StateAt(states, k, p) == StateAt(states, m, p) != StateAt(states, k + 1, p)
    decreases n - m
  {
    hide IsRun;
    ProcsStay(states, steps, m);
    ProcsStay(states, steps, m + 1);
    k := m;
    if StateAt(states, m + 1, p) == StateAt(states, m, p) {
      k := FirstChange(states, steps, m + 1, n, p);
    }
  }

  lemma StateStepInRun(states: seq<State>, steps: seq<Step>, k: nat, p: nat)
    requires IsRun(states, steps) && k < |steps| && IsProc(states[k], p)
    ensures IsProc(states[k + 1], p)
    ensures var was, now := StateAt(states, k, p), StateAt(states, k + 1, p);
            || was == now
            || (was == RUNNABLE && now == RUNNING)
            || (was == RUNNING && now in {RUNNABLE, SLEEPING, ZOMBIE})
            || (ActsOn(states[k], steps[k], p) && steps[k].st == now
                && (was, now) in {(UNUSED, USED), (USED, UNUSED), (USED, RUNNABLE), (SLEEPING, RUNNABLE),
                                  (ZOMBIE, UNUSED)})
  {
    RunOk(states, steps, k);
    assert Next(states[k], steps[k], states[k + 1]);
    hide Inv, Next;
    StateStep(states[k], steps[k], states[k + 1], p);
  }

  // A process that slept and runs again was woken in between: another process made it RUNNABLE.
  lemma SleeperIsWoken(states: seq<State>, steps: seq<Step>, m: nat, n: nat, p: nat) returns (k: nat)
    requires IsRun(states, steps) && m <= n < |states| && IsProc(states[m], p) && IsProc(states[n], p)
    requires states[m].procs[p].state == SLEEPING && states[n].procs[p].state == RUNNING
    ensures m <= k < n && ActsOn(states[k], steps[k], p) && steps[k].st == RUNNABLE
    ensures IsProc(states[k], p) && states[k].procs[p].state == SLEEPING
    ensures IsProc(states[k + 1], p) && states[k + 1].procs[p].state == RUNNABLE
  {
    k := FirstChange(states, steps, m, n, p);
    StateStepInRun(states, steps, k, p);
  }

  // The slot of a process that has exited runs again only after it was freed and then allocated.
  lemma ZombieIsReaped(states: seq<State>, steps: seq<Step>, m: nat, n: nat, p: nat) returns (i: nat, j: nat)
    requires IsRun(states, steps) && m <= n < |states| && IsProc(states[m], p) && IsProc(states[n], p)
    requires states[m].procs[p].state == ZOMBIE && states[n].procs[p].state == RUNNING
    ensures m < i < j < n && IsProc(states[i], p) && IsProc(states[j], p)
    ensures states[i].procs[p].state == UNUSED && states[j].procs[p].state == USED
    ensures ActsOn(states[i - 1], steps[i - 1], p) && ActsOn(states[j - 1], steps[j - 1], p)
  {
    hide IsRun;
    var k := FirstChange(states, steps, m, n, p);
    StateStepInRun(states, steps, k, p);
    i := k + 1;
    var l := FirstChange(states, steps, i, n, p);
    StateStepInRun(states, steps, l, p);
    j := l + 1;
  }

  // A CPU whose scheduler has locked a process runs it if it is RUNNABLE, and leaves it alone if not.
  lemma LookedAtIsRun(states: seq<State>, steps: seq<Step>, n: nat, c: nat, p: nat)
    requires IsRun(states, steps) && n < |steps| && IsCpu(states[n], c) && IsProc(states[n], p)
    requires states[n].cpus[c].at == Checked(p) && steps[n].c == c
    ensures IsCpu(states[n + 1], c) && IsProc(states[n + 1], p)
    ensures var s, s' := states[n], states[n + 1];
            if s.procs[p].state == RUNNABLE then
              s'.procs[p].state == RUNNING && s'.cpus[c].cproc == Some(p) && s'.procs[p].lock == Some(c)
            else
              s'.procs == s.procs[p := s.procs[p].(lock := None)] && s'.cpus[c].at == Idle && s'.cpus[c].cproc == None
  {
    RunOk(states, steps, n);
    assert Next(states[n], steps[n], states[n + 1]);
    assert CpuOk(states[n], c);
  }

  // ---------------------------------------------------------------- such runs exist

  lemma Extend(states: seq<State>, steps: seq<Step>, e: Step, s': State)
    returns (states': seq<State>, steps': seq<Step>)
    requires IsRun(states, steps) && Next(states[|steps|], e, s')
    ensures states' == states + [s'] && steps' == steps + [e] && IsRun(states', steps')
  {
    states', steps' := states + [s'], steps + [e];
  }

  // A RUNNABLE process whose lock is free can be run by any CPU that is in its scheduler.
  lemma Dispatch(states: seq<State>, steps: seq<Step>, c: nat, p: nat) returns (states': seq<State>, steps': seq<Step>)
    requires IsRun(states, steps) && CanLook(states[|steps|], c, p) && states[|steps|].procs[p].state == RUNNABLE
    ensures IsRun(states', steps') && states <= states'
    ensures var s := states[|steps|];
            states'[|steps'|] == SetProc(SetCpu(s, c, Off(s.cpus[c]).(at := Run(p, Resumed), cproc := Some(p))), p,
                                         Proc(RUNNING, Some(c), Live, Some(c)))
  {
    hide IsRun;
    var s := states[|steps|];
    var s1 := Look(s, c, p);
    states', steps' := Extend(states, steps, SLook(c, p), s1);
    var s2 := Pick(s1, c);
    states', steps' := Extend(states', steps', SPick(c), s2);
    var s3 := Store(s2, c);
    states', steps' := Extend(states', steps', SStore(c), s3);
    var s4 := Enter(s3, c);
    states', steps' := Extend(states', steps', SEnter(c), s4);
  }

  // A process that runs without other locks can yield, which leaves its CPU in the scheduler.
  lemma YieldCpu(states: seq<State>, steps: seq<Step>, c: nat, p: nat) returns (states': seq<State>, steps': seq<Step>)
    requires IsRun(states, steps)
    requires var s := states[|steps|]; Running(s, c, Resumed) && Mine(s, c) == p && s.cpus[c].noff == 1
                                       && s.cpus[c].other == 0 && s.cpus[c].env == None
    ensures IsRun(states', steps') && states <= states'
    ensures var s := states[|steps|]; states'[|steps'|] == SetProc(SetCpu(s, c, Cpu(Idle, None, 0, true, 0, None)), p,
                                                                   Proc(RUNNABLE, None, Full, None))
  {
    hide IsRun;
    var s := states[|steps|];
    var s1 := UnlockSelf(s, c, true);
    states', steps' := Extend(states, steps, SUnlockSelf(c, true), s1);
    var s2 := LockSelf(s1, c, Yield);
    states', steps' := Extend(states', steps', SLockSelf(c, Yield), s2);
    var s3 := Change(s2, c, RUNNABLE);
    states', steps' := Extend(states', steps', SChange(c, RUNNABLE), s3);
    states', steps' := SwitchOut(states', steps', c, p);
  }

  // sched and the scheduler's release of p->lock.
  lemma SwitchOut(states: seq<State>, steps: seq<Step>, c: nat, p: nat) returns (states': seq<State>, steps': seq<Step>)
    requires IsRun(states, steps)
    requires var s := states[|steps|]; CanSched(s, c) && Mine(s, c) == p && s.cpus[c].noff == 1
                                       && s.cpus[c].other == 0 && s.cpus[c].env == None
    ensures IsRun(states', steps') && states <= states'
    ensures var s := states[|steps|]; states'[|steps'|] == SetProc(SetCpu(s, c, Cpu(Idle, None, 0, true, 0, None)), p,
                                                                   Proc(s.procs[p].state, None, Full, None))
  {
    hide IsRun;
    var s := states[|steps|];
    var s1 := Sched(s, c);
    states', steps' := Extend(states, steps, SSched(c), s1);
    var s2 := Saved(s1, c);
    states', steps' := Extend(states', steps', SSaved(c), s2);
    var s3 := Return(s2, c);
    states', steps' := Extend(states', steps', SReturn(c), s3);
    var s4 := Done(s3, c, true);
    states', steps' := Extend(states', steps', SDone(c, true), s4);
  }

  // A process that entered sched on one CPU comes back from it on another.
  lemma Migrates(s: State, c: nat, d: nat, p: nat) returns (states: seq<State>, steps: seq<Step>, n: nat)
    requires Init(s) && IsCpu(s, c) && IsCpu(s, d) && c != d && IsProc(s, p) && s.procs[p].state == RUNNABLE
    ensures IsRun(states, steps) && n < |steps| && states[0] == s
    ensures Running(states[n], c, Resumed) && Mine(states[n], c) == p
    ensures Running(states[|steps|], d, Resumed) && Mine(states[|steps|], d) == p
  {
    states, steps := [s], [];
    assert IsRun(states, steps);
    hide IsRun, Init;
    states, steps := Dispatch(states, steps, c, p);
    n := |steps|;
    ghost var first := states;
    states, steps := YieldCpu(states, steps, c, p);
    states, steps := Dispatch(states, steps, d, p);
    assert states[n] == first[n];
  }

  // A process that runs without other locks can sleep, or exit, which leaves its CPU in the scheduler.
  lemma Stops(states: seq<State>, steps: seq<Step>, c: nat, p: nat, why: Why)
    returns (states': seq<State>, steps': seq<Step>)
    requires IsRun(states, steps) && why in {Sleep, Exit}
    requires var s := states[|steps|]; Running(s, c, Resumed) && Mine(s, c) == p && s.cpus[c].noff == 1
                                       && s.cpus[c].other == 0 && s.cpus[c].env == None
    ensures IsRun(states', steps') && states <= states'
    ensures var s := states[|steps|];
            states'[|steps'|] == SetProc(SetCpu(s, c, Cpu(Idle, None, 0, true, 0, None)), p,
                                         Proc(if why == Sleep then SLEEPING else ZOMBIE, None, Full, None))
  {
    hide IsRun;
    var s := states[|steps|];
    var s1 := UnlockSelf(s, c, true);
    states', steps' := Extend(states, steps, SUnlockSelf(c, true), s1);
    var s2 := Take(s1, c);
    states', steps' := Extend(states', steps', STake(c), s2);
    var s3 := LockSelf(s2, c, why);
    states', steps' := Extend(states', steps', SLockSelf(c, why), s3);
    states', steps' := LeavesOff(states', steps', c, p, why);
  }

  // sleep releases the lock it was given and then changes the state; exit does it the other way round.
  lemma LeavesOff(states: seq<State>, steps: seq<Step>, c: nat, p: nat, why: Why)
    returns (states': seq<State>, steps': seq<Step>)
    requires IsRun(states, steps) && why in {Sleep, Exit}
    requires var s := states[|steps|]; Running(s, c, Locked(why, true)) && Mine(s, c) == p && s.cpus[c].noff == 2
                                       && s.cpus[c].other == 1 && s.cpus[c].env == None
    ensures IsRun(states', steps') && states <= states'
    ensures var s := states[|steps|];
            states'[|steps'|] == SetProc(SetCpu(s, c, Cpu(Idle, None, 0, true, 0, None)), p,
                                         Proc(if why == Sleep then SLEEPING else ZOMBIE, None, Full, None))
  {
    hide IsRun;
    var s := states[|steps|];
    if why == Sleep {
      var s1 := Drop(s, c, true);
      states', steps' := Extend(states, steps, SDrop(c, true), s1);
      var s2 := Change(s1, c, SLEEPING);
      states', steps' := Extend(states', steps', SChange(c, SLEEPING), s2);
    } else {
      var s1 := Change(s, c, ZOMBIE);
      states', steps' := Extend(states, steps, SChange(c, ZOMBIE), s1);
      var s2 := Drop(s1, c, true);
      states', steps' := Extend(states', steps', SDrop(c, true), s2);
    }
    states', steps' := SwitchOut(states', steps', c, p);
  }

  // What the holder of p->lock does in wakeup, or in wait and then in fork.
  lemma MadeRunnable(states: seq<State>, steps: seq<Step>, d: nat, p: nat)
    returns (states': seq<State>, steps': seq<Step>)
    requires IsRun(states, steps)
    requires var s := states[|steps|]; Grabbed(s, d) && s.cpus[d].env == Some(p) && s.procs[p].ctx == Full
                                       && s.procs[p].state in {SLEEPING, ZOMBIE}
    ensures IsRun(states', steps') && states <= states'
    ensures var s := states[|steps|]; states'[|steps'|] == SetProc(s, p, s.procs[p].(state := RUNNABLE))
  {
    hide IsRun;
    var s := states[|steps|];
    if s.procs[p].state == SLEEPING {
      states', steps' := Extend(states, steps, SAct(d, RUNNABLE), Act(s, d, RUNNABLE));
    } else {
      var s1 := Act(s, d, UNUSED);
      states', steps' := Extend(states, steps, SAct(d, UNUSED), s1);
      var s2 := Act(s1, d, USED);
      states', steps' := Extend(states', steps', SAct(d, USED), s2);
      states', steps' := Extend(states', steps', SAct(d, RUNNABLE), Act(s2, d, RUNNABLE));
    }
  }

  // A running process makes p RUNNABLE: it wakes it, or it frees the slot and allocates it again.
  lemma Revives(states: seq<State>, steps: seq<Step>, d: nat, q: nat, p: nat)
    returns (states': seq<State>, steps': seq<Step>)
    requires IsRun(states, steps) && p != q && IsProc(states[|steps|], p)
    requires var s := states[|steps|]; Running(s, d, Resumed) && Mine(s, d) == q && s.cpus[d].noff == 1
                                       && s.cpus[d].other == 0 && s.cpus[d].env == None
                                       && s.procs[p] in {Proc(SLEEPING, None, Full, None),
                                                         Proc(ZOMBIE, None, Full, None)}
    ensures IsRun(states', steps') && states <= states'
    ensures var s := states[|steps|];
            states'[|steps'|].procs == s.procs[q := s.procs[q].(lock := None)][p := Proc(RUNNABLE, None, Full, None)]
            && states'[|steps'|].cpus == s.cpus[d := s.cpus[d].(at := Run(q, Normal), noff := 0, intr := true)]
  {
    hide IsRun;
    var s := states[|steps|];
    var s1 := UnlockSelf(s, d, true);
    states', steps' := Extend(states, steps, SUnlockSelf(d, true), s1);
    var s2 := Grab(s1, d, p);
    states', steps' := Extend(states', steps', SGrab(d, p), s2);
    states', steps' := MadeRunnable(states', steps', d, p);
    var s6 := Ungrab(states'[|steps'|], d, true);
    states', steps' := Extend(states', steps', SUngrab(d, true), s6);
  }

  // A process that sleeps, or exits, can run again: it is woken, or its slot is freed and used again.
  lemma RunsAgain(s: State, c: nat, d: nat, p: nat, q: nat, why: Why)
    returns (states: seq<State>, steps: seq<Step>, m: nat)
    requires Init(s) && IsCpu(s, c) && IsCpu(s, d) && c != d && IsProc(s, p) && IsProc(s, q) && p != q
    requires s.procs[p].state == RUNNABLE && s.procs[q].state == RUNNABLE && why in {Sleep, Exit}
    ensures IsRun(states, steps) && m < |steps| && IsProc(states[m], p) && IsProc(states[|steps|], p)
    ensures states[m].procs[p].state == (if why == Sleep then SLEEPING else ZOMBIE)
    ensures states[|steps|].procs[p].state == RUNNING
  {
    states, steps := [s], [];
    assert IsRun(states, steps);
    hide IsRun, Init;
    states, steps := Dispatch(states, steps, c, p);
    states, steps := Stops(states, steps, c, p, why);
    m := |steps|;
    ghost var first := states;
    states, steps := Dispatch(states, steps, d, q);
    states, steps := Revives(states, steps, d, q, p);
    states, steps := Dispatch(states, steps, c, p);
    assert states[m] == first[m];
  }

  // swtch loads one side's registers only when it has stored all of the other's.
  lemma SwitchIsComplete(states: seq<State>, steps: seq<Step>, n: nat, c: nat)
    requires IsRun(states, steps) && n < |steps| && IsCpu(states[n], c) && IsCpu(states[n + 1], c)
    requires var at, at' := states[n].cpus[c].at, states[n + 1].cpus[c].at;
             (at.Leaving? && !at'.Leaving?) || (at.Entering? && !at'.Entering?)
    ensures states[n].cpus[c].at.saved
  {
    assert Next(states[n], steps[n], states[n + 1]);
  }
}
