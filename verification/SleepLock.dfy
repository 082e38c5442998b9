/** Sleep-locks (kernel/sleeplock.c on sleep and wakeup of kernel/proc.c) as the steps of any number
    of processes in any order: one holder at a time, and no wakeup is lost. */
module SleepLock {
  import opened Params

  // Where a process is.  acquiresleep: Wait, Test, the four points of sleep, Asleep, Resume, Got.
  // releasesleep: Clear, then wakeup's scan of the process table.
  datatype Pc =
    | Out                     // outside
    | Wait                    // about to acquire lk->lk
    | Test                    // lk->lk held, about to test lk->locked
    | Sleep1                  // in sleep, about to acquire p->lock
    | Sleep2                  // p->lock and lk->lk held
    | Sleep3                  // p->lock held, lk->lk released
    | Sleep4                  // state SLEEPING, in sched
    | Asleep                  // switched away, p->lock released by the scheduler
    | Resume                  // switched back, p->lock held
    | Got                     // lk->locked set, lk->lk still held
    | Hold                    // after acquiresleep
    | Clear                   // in releasesleep, lk->lk held
    | Scan(k: nat)            // wakeup is about to look at process k
    | ScanAt(k: nat)          // wakeup holds the lock of process k

  // asleep is state == SLEEPING with chan == lk; plock is the holder of p->lock.
  datatype Proc = Proc(pc: Pc, asleep: bool, plock: Option<nat>)

  // spin is the holder of lk->lk, owner the process that set lk->locked.
  datatype State = State(spin: Option<nat>, locked: bool, owner: Option<nat>, procs: seq<Proc>)

  predicate At(s: State, p: nat, pc: Pc) { p < |s.procs| && s.procs[p].pc == pc }

  function Move(s: State, p: nat, pc: Pc): State
    requires p < |s.procs|
  {
    s.(procs := s.procs[p := s.procs[p].(pc := pc)])
  }

  function SetLock(s: State, p: nat, h: Option<nat>): State
    requires p < |s.procs|
  {
    s.(procs := s.procs[p := s.procs[p].(plock := h)])
  }

  function SetAsleep(s: State, p: nat, b: bool): State
    requires p < |s.procs|
  {
    s.(procs := s.procs[p := s.procs[p].(asleep := b)])
  }

  // ---------------------------------------------------------------- steps

  datatype Step =
    | Call(p: nat) | TakeSpin(p: nat) | FindFree(p: nat) | FindLocked(p: nat) | Leave(p: nat)
    | LockSelf(p: nat) | DropSpin(p: nat) | GoToSleep(p: nat) | SwitchAway(p: nat) | SwitchBack(p: nat) | WakeUp(p: nat)
    | Release(p: nat) | Unlock(p: nat) | Look(p: nat) | Pass(p: nat) | Wake(p: nat) | Finish(p: nat)
    | KillLock(q: nat) | KillWake(q: nat) | KillUnlock(q: nat)

  // kill is done by someone outside this lock's users.
  function Killer(s: State): nat { |s.procs| }

  ghost predicate Acquiring(s: State, e: Step, s': State) {
    match e
    // acquire(&lk->lk) at the start of acquiresleep, and again at the end of sleep
    case Call(p) => At(s, p, Out) && s' == Move(s, p, Wait)
    case TakeSpin(p) => At(s, p, Wait) && s.spin == None && s' == Move(s, p, Test).(spin := Some(p))
    // while (lk->locked)
    case FindFree(p) => At(s, p, Test) && !s.locked && s' == Move(s, p, Got).(locked := true, owner := Some(p))
    case FindLocked(p) => At(s, p, Test) && s.locked && s' == Move(s, p, Sleep1)
    case Leave(p) => At(s, p, Got) && s' == Move(s, p, Hold).(spin := None)
    case _ => false
  }

  ghost predicate Sleeping(s: State, e: Step, s': State) {
    match e
    case LockSelf(p) => At(s, p, Sleep1) && s.procs[p].plock == None && s' == Move(SetLock(s, p, Some(p)), p, Sleep2)
    case DropSpin(p) => At(s, p, Sleep2) && s' == Move(s, p, Sleep3).(spin := None)
    case GoToSleep(p) => At(s, p, Sleep3) && s' == Move(SetAsleep(s, p, true), p, Sleep4)
    case SwitchAway(p) => At(s, p, Sleep4) && s' == Move(SetLock(s, p, None), p, Asleep)
    // the scheduler runs p again only when it is RUNNABLE, and holds p->lock as it does so
    case SwitchBack(p) => At(s, p, Asleep) && !s.procs[p].asleep && s.procs[p].plock == None
        && s' == Move(SetLock(s, p, Some(p)), p, Resume)
    case WakeUp(p) => At(s, p, Resume) && s' == Move(SetLock(s, p, None), p, Wait)
    case _ => false
  }

  ghost predicate Releasing(s: State, e: Step, s': State) {
    match e
    case Release(p) => At(s, p, Hold) && s.spin == None && s' == Move(s, p, Clear).(spin := Some(p))
    case Unlock(p) => At(s, p, Clear) && s' == Move(s, p, Scan(0)).(locked := false, owner := None)
    case Look(p) => p < |s.procs| && s.procs[p].pc.Scan? && s.procs[p].pc.k < |s.procs| && s.procs[p].pc.k != p
        && s.procs[s.procs[p].pc.k].plock == None
      && s' == Move(SetLock(s, s.procs[p].pc.k, Some(p)), p, ScanAt(s.procs[p].pc.k))
    case Pass(p) => p < |s.procs| && s.procs[p].pc == Scan(p) && s' == Move(s, p, Scan(p + 1))
    // wake the process if it sleeps here, and release its lock
    case Wake(p) => p < |s.procs| && s.procs[p].pc.ScanAt? && s.procs[p].pc.k < |s.procs| && s.procs[p].pc.k != p
      && s' == Move(SetAsleep(SetLock(s, s.procs[p].pc.k, None), s.procs[p].pc.k, false), p, Scan(s.procs[p].pc.k + 1))
    case Finish(p) => p < |s.procs| && s.procs[p].pc == Scan(|s.procs|) && s' == Move(s, p, Out).(spin := None)
    case _ => false
  }

  ghost predicate Killing(s: State, e: Step, s': State) {
    match e
    case KillLock(q) => q < |s.procs| && s.procs[q].plock == None && s' == SetLock(s, q, Some(Killer(s)))
    case KillWake(q) => q < |s.procs| && s.procs[q].plock == Some(Killer(s)) && s' == SetAsleep(s, q, false)
    case KillUnlock(q) => q < |s.procs| && s.procs[q].plock == Some(Killer(s)) && s' == SetLock(s, q, None)
    case _ => false
  }

  ghost predicate Next(s: State, e: Step, s': State) {
    Acquiring(s, e, s') || Sleeping(s, e, s') || Releasing(s, e, s') || Killing(s, e, s')
  }

  predicate Init(s: State) {
    s.spin == None && !s.locked && s.owner == None
    && forall p :: 0 <= p < |s.procs| ==> s.procs[p] == Proc(Out, false, None)
  }

  // ---------------------------------------------------------------- the invariant

  // These hold lk->lk.
  predicate Spins(pc: Pc) { pc.Test? || pc.Sleep1? || pc.Sleep2? || pc.Got? || pc.Clear? || pc.Scan? || pc.ScanAt? }

  // These hold the sleep-lock.
  predicate Owns(pc: Pc) { pc.Got? || pc.Hold? || pc.Clear? }

  // These hold their own p->lock.
  predicate SelfLocked(pc: Pc) { pc.Sleep2? || pc.Sleep3? || pc.Sleep4? || pc.Resume? }

  // r is in a scan that has yet to wake process p.
  predicate WillWake(s: State, r: nat, p: nat) {
    r < |s.procs| && r != p && ((s.procs[r].pc.Scan? && s.procs[r].pc.k <= p) || s.procs[r].pc == ScanAt(p)
                                || (s.procs[r].pc.ScanAt? && s.procs[r].pc.k < p))
  }

  // p sleeps here, or is past the point where it could notice that the lock is free.
  predicate Committed(e: Proc) { e.asleep || e.pc.Sleep2? || e.pc.Sleep3? || e.pc.Sleep1? }

  ghost predicate Awaited(s: State, p: nat) { s.locked || exists r :: WillWake(s, r, p) }

  ghost predicate ProcOk(s: State, p: nat)
    requires p < |s.procs|
  {
    var e := s.procs[p];
    && (Spins(e.pc) <==> s.spin == Some(p)) && (Owns(e.pc) <==> s.owner == Some(p))
    && (SelfLocked(e.pc) <==> e.plock == Some(p))
    && (e.pc.Scan? ==> e.pc.k <= |s.procs|)
    && (e.pc.ScanAt? ==> e.pc.k < |s.procs| && e.pc.k != p && s.procs[e.pc.k].plock == Some(p))
    && (e.asleep ==> e.pc.Sleep4? || e.pc.Asleep?)
    && (e.pc.Sleep4? ==> e.asleep)
    && (Committed(e) ==> Awaited(s, p))
  }

  ghost predicate Inv(s: State) {
    && (s.locked <==> s.owner.Some?) && (s.owner.Some? ==> s.owner.value < |s.procs|)
    && (s.spin.Some? ==> s.spin.value < |s.procs|)
    && forall p :: 0 <= p < |s.procs| ==> ProcOk(s, p)
  }

  // ---------------------------------------------------------------- every step keeps it

  // Whoever was awaited still is, if the lock did not become free and no scan moved.
  lemma StillAwaited(s: State, s': State, q: nat)
    requires |s'.procs| == |s.procs| && Awaited(s, q) && (s.locked ==> s'.locked)
    requires forall r :: 0 <= r < |s.procs| && (s.procs[r].pc.Scan? || s.procs[r].pc.ScanAt?) ==>
                           s'.procs[r].pc == s.procs[r].pc
    ensures Awaited(s', q)
  {
    if !s.locked {
      var r :| WillWake(s, r, q);
      assert WillWake(s', r, q);
    }
  }

  lemma AcquiringKeeps(s: State, e: Step, s': State)
    requires Inv(s) && Acquiring(s, e, s')
    ensures Inv(s')
  {
    hide Awaited;
    var p := e.p;
    assert ProcOk(s, p);
    forall q | 0 <= q < |s'.procs| ensures ProcOk(s', q) {
      assert ProcOk(s, q);
      if Committed(s.procs[q]) { StillAwaited(s, s', q); }
      if Committed(s'.procs[q]) && s'.locked { NowLocked(s', q); }
    }
  }

  lemma NowLocked(s: State, q: nat)
    requires s.locked
    ensures Awaited(s, q)
  {
  }

  lemma FallingAsleepKeeps(s: State, e: Step, s': State)
    requires Inv(s) && Sleeping(s, e, s') && (e.LockSelf? || e.DropSpin? || e.GoToSleep?)
    ensures Inv(s')
  {
    hide Awaited;
    var p := e.p;
    assert ProcOk(s, p);
    forall q | 0 <= q < |s'.procs| ensures ProcOk(s', q) {
      assert ProcOk(s, q);
      if Committed(s.procs[q]) { StillAwaited(s, s', q); }
    }
  }

  lemma SwitchingKeeps(s: State, e: Step, s': State)
    requires Inv(s) && Sleeping(s, e, s') && (e.SwitchAway? || e.SwitchBack? || e.WakeUp?)
    ensures Inv(s')
  {
    hide Awaited;
    var p := e.p;
    assert ProcOk(s, p);
    forall q | 0 <= q < |s'.procs| ensures ProcOk(s', q) {
      assert ProcOk(s, q);
      if Committed(s.procs[q]) { StillAwaited(s, s', q); }
    }
  }

  // The scan of r is the only one: the others wait for lk->lk.
  lemma OneScan(s: State, p: nat, r: nat)
    requires Inv(s) && p < |s.procs| && r < |s.procs| && Spins(s.procs[p].pc) && Spins(s.procs[r].pc)
    ensures r == p
  {
    assert ProcOk(s, p) && ProcOk(s, r);
  }

  lemma ReleaseKeeps(s: State, e: Step, s': State)
    requires Inv(s) && Releasing(s, e, s') && (e.Release? || e.Unlock?)
    ensures Inv(s')
  {
    var p := e.p;
    assert ProcOk(s, p);
    forall q | 0 <= q < |s'.procs| ensures ProcOk(s', q) {
      assert ProcOk(s, q);
      if e.Unlock? {
        if q != p { assert WillWake(s', p, q); }
      } else if Committed(s.procs[q]) { StillAwaited(s, s', q); }
    }
  }

  lemma LookKeeps(s: State, e: Step, s': State)
    requires Inv(s) && Releasing(s, e, s') && (e.Look? || e.Pass?)
    ensures Inv(s')
  {
    hide Awaited;
    var p := e.p;
    var k := s.procs[p].pc.k;
    assert ProcOk(s, p);
    forall q | 0 <= q < |s'.procs| ensures ProcOk(s', q) {
      assert ProcOk(s, q);
      if Committed(s.procs[q]) { ScanMoved(s, s', p, q); }
    }
  }

  // The scan advances to process k, or past the scanner itself.
  lemma ScanMoved(s: State, s': State, p: nat, q: nat)
    requires Inv(s) && p < |s.procs| == |s'.procs| && q < |s.procs| && s.procs[p].pc.Scan? && Awaited(s, q)
             && s'.locked == s.locked && q != p
    requires s'.procs[p].pc == ScanAt(s.procs[p].pc.k) || (s.procs[p].pc.k == p && s'.procs[p].pc == Scan(p + 1))
    requires forall r :: 0 <= r < |s.procs| && r != p ==> s'.procs[r].pc == s.procs[r].pc
    ensures Awaited(s', q)
  {
    if !s.locked {
      var r :| WillWake(s, r, q);
      OneScan(s, p, r);
      assert WillWake(s', p, q);
    }
  }

  lemma WakeKeeps(s: State, e: Step, s': State)
    requires Inv(s) && Releasing(s, e, s') && (e.Wake? || e.Finish?)
    ensures Inv(s')
  {
    hide Awaited;
    var p := e.p;
    assert ProcOk(s, p);
    forall q | 0 <= q < |s'.procs| ensures ProcOk(s', q) {
      assert ProcOk(s, q);
      if Committed(s'.procs[q]) { ScanPassed(s, e, s', p, q); }
    }
  }

  // The scan leaves a process only when that process is awake.
  lemma ScanPassed(s: State, e: Step, s': State, p: nat, q: nat)
    requires Inv(s) && Releasing(s, e, s') && (e.Wake? || e.Finish?) && e.p == p && q < |s.procs|
             && Committed(s'.procs[q])
    ensures Awaited(s', q)
  {
    assert ProcOk(s, p) && ProcOk(s, q);
    assert Committed(s.procs[q]) && Awaited(s, q);
    if !s.locked {
      var r :| WillWake(s, r, q);
      OneScan(s, p, r);
      assert WillWake(s', p, q);
    }
  }

  lemma KillingKeeps(s: State, e: Step, s': State)
    requires Inv(s) && Killing(s, e, s')
    ensures Inv(s')
  {
    hide Awaited;
    var p := e.q;
    assert ProcOk(s, p);
    forall q | 0 <= q < |s'.procs| ensures ProcOk(s', q) {
      assert ProcOk(s, q);
      if Committed(s.procs[q]) { StillAwaited(s, s', q); }
    }
  }

  lemma NextKeeps(s: State, e: Step, s': State)
    requires Inv(s) && Next(s, e, s')
    ensures Inv(s')
  {
    hide Inv;
    if Acquiring(s, e, s') { AcquiringKeeps(s, e, s'); }
    else if Sleeping(s, e, s') { if e.LockSelf? || e.DropSpin?
                                || e.GoToSleep? { FallingAsleepKeeps(s, e, s'); } else { SwitchingKeeps(s, e, s'); } }
    else if Killing(s, e, s') { KillingKeeps(s, e, s'); }
    else if e.Release? || e.Unlock? { ReleaseKeeps(s, e, s'); }
    else if e.Look? || e.Pass? { LookKeeps(s, e, s'); }
    else { WakeKeeps(s, e, s'); }
  }

  // ---------------------------------------------------------------- runs

  ghost predicate IsRun(states: seq<State>, steps: seq<Step>)
    ensures IsRun(states, steps) ==> |states| == |steps| + 1
  {
    |states| == |steps| + 1 && Init(states[0]) && forall k :: 0 <= k < |steps| ==>
                                                                Next(states[k], steps[k], states[k + 1])
  }

  lemma {:induction false} RunOk(states: seq<State>, steps: seq<Step>, n: nat)
    requires IsRun(states, steps) && n < |states|
    ensures Inv(states[n])
  {
    if n > 0 {
      hide Inv, Next;
      RunOk(states, steps, n - 1);
      assert Next(states[n - 1], steps[n - 1], states[n - 1 + 1]);
      NextKeeps(states[n - 1], steps[n - 1], states[n]);
    }
  }

  // At most one process holds the sleep-lock, and while one does lk->locked is set.
  lemma MutualExclusion(states: seq<State>, steps: seq<Step>, n: nat, p: nat, q: nat)
    requires IsRun(states, steps) && n < |states| && At(states[n], p, Hold) && At(states[n], q, Hold)
    ensures p == q && states[n].locked && states[n].owner == Some(p)
  {
    RunOk(states, steps, n);
    assert ProcOk(states[n], p) && ProcOk(states[n], q);
  }

  // Whenever a process is SLEEPING on the lock, the lock is held or some releaser's scan has yet
  // to reach it.
  lemma NoLostWakeup(states: seq<State>, steps: seq<Step>, n: nat, p: nat)
    requires IsRun(states, steps) && n < |states| && p < |states[n].procs| && states[n].procs[p].asleep
    ensures states[n].locked || exists r :: WillWake(states[n], r, p)
  {
    RunOk(states, steps, n);
    assert ProcOk(states[n], p);
  }

  // When nobody holds the lock and nobody is in the middle of acquiring or releasing it, nobody
  // sleeps on it.
  lemma NobodyStuck(states: seq<State>, steps: seq<Step>, n: nat, p: nat)
    requires IsRun(states, steps) && n < |states| && p < |states[n].procs| && !states[n].locked
             && states[n].spin == None
    ensures !states[n].procs[p].asleep
  {
    RunOk(states, steps, n);
    assert ProcOk(states[n], p);
    forall r: nat ensures !WillWake(states[n], r, p) { if r < |states[n].procs| { assert ProcOk(states[n], r); } }
  }

  // ---------------------------------------------------------------- such runs exist

  lemma Extend(states: seq<State>, steps: seq<Step>, e: Step, s': State)
    returns (states': seq<State>, steps': seq<Step>)
    requires IsRun(states, steps) && Next(states[|steps|], e, s')
    ensures states' == states + [s'] && steps' == steps + [e] && IsRun(states', steps')
  {
    states', steps' := states + [s'], steps + [e];
  }

  lemma Acquires(states: seq<State>, steps: seq<Step>, p: nat) returns (states': seq<State>, steps': seq<Step>)
    requires IsRun(states, steps) && var s := states[|steps|]; At(s, p, Wait) && s.spin == None && !s.locked
    ensures IsRun(states', steps') && states <= states'
    ensures var s := states[|steps|]; states'[|steps'|] == Move(s, p, Hold).(locked := true, owner := Some(p))
  {
    hide IsRun;
    var s := states[|steps|];
    var s1 := Move(s, p, Test).(spin := Some(p));
    states', steps' := Extend(states, steps, TakeSpin(p), s1);
    var s2 := Move(s1, p, Got).(locked := true, owner := Some(p));
    states', steps' := Extend(states', steps', FindFree(p), s2);
    var s3 := Move(s2, p, Hold).(spin := None);
    states', steps' := Extend(states', steps', Leave(p), s3);
  }

  // A process that finds the lock taken gets as far as releasing lk->lk in sleep.
  lemma Contends(states: seq<State>, steps: seq<Step>, p: nat) returns (states': seq<State>, steps': seq<Step>)
    requires IsRun(states, steps) && var s := states[|steps|];
             At(s, p, Wait) && s.spin == None && s.locked && s.procs[p].plock == None
    ensures IsRun(states', steps') && states <= states'
    ensures var s := states[|steps|]; states'[|steps'|] == Move(SetLock(s, p, Some(p)), p, Sleep3)
  {
    hide IsRun;
    var s := states[|steps|];
    var s1 := Move(s, p, Test).(spin := Some(p));
    states', steps' := Extend(states, steps, TakeSpin(p), s1);
    var s2 := Move(s1, p, Sleep1);
    states', steps' := Extend(states', steps', FindLocked(p), s2);
    var s3 := Move(SetLock(s2, p, Some(p)), p, Sleep2);
    states', steps' := Extend(states', steps', LockSelf(p), s3);
    var s4 := Move(s3, p, Sleep3).(spin := None);
    states', steps' := Extend(states', steps', DropSpin(p), s4);
  }

  // The holder 0 releases the lock while process 1 is between releasing lk->lk and sleeping.
  lemma SleepsLate(states: seq<State>, steps: seq<Step>) returns (states': seq<State>, steps': seq<Step>)
    requires IsRun(states, steps) && var s := states[|steps|];
             |s.procs| == 2 && At(s, 0, Hold) && At(s, 1, Sleep3) && s.spin == None
    ensures IsRun(states', steps') && states <= states'
    ensures var s := states[|steps|]; states'[|steps'|] == Move(SetAsleep(Move(s, 0, Scan(0)), 1, true), 1,
                                                                Sleep4).(spin := Some(0), locked := false,
                                                                         owner := None)
  {
    hide IsRun;
    var s := states[|steps|];
    var s1 := Move(s, 0, Clear).(spin := Some(0));
    states', steps' := Extend(states, steps, Release(0), s1);
    var s2 := Move(s1, 0, Scan(0)).(locked := false, owner := None);
    states', steps' := Extend(states', steps', Unlock(0), s2);
    var s3 := Move(SetAsleep(s2, 1, true), 1, Sleep4);
    states', steps' := Extend(states', steps', GoToSleep(1), s3);
  }

  // The scan of process 0 passes itself while process 1 is switched away.
  lemma ScanPasses(states: seq<State>, steps: seq<Step>) returns (states': seq<State>, steps': seq<Step>)
    requires IsRun(states, steps) && var s := states[|steps|]; |s.procs| == 2 && At(s, 0, Scan(0)) && At(s, 1, Sleep4)
    ensures IsRun(states', steps') && states <= states'
    ensures var s := states[|steps|]; states'[|steps'|] == Move(Move(SetLock(s, 1, None), 1, Asleep), 0, Scan(1))
  {
    hide IsRun;
    var s := states[|steps|];
    var s1 := Move(SetLock(s, 1, None), 1, Asleep);
    states', steps' := Extend(states, steps, SwitchAway(1), s1);
    var s2 := Move(s1, 0, Scan(1));
    states', steps' := Extend(states', steps', Pass(0), s2);
  }

  // It finds process 1 and wakes it.
  lemma ScanWakes(states: seq<State>, steps: seq<Step>) returns (states': seq<State>, steps': seq<Step>)
    requires IsRun(states, steps) && var s := states[|steps|];
             |s.procs| == 2 && At(s, 0, Scan(1)) && At(s, 1, Asleep) && s.procs[1].plock == None
    ensures IsRun(states', steps') && states <= states'
    ensures var s := states[|steps|]; states'[|steps'|] == Move(SetAsleep(s, 1, false), 0, Out).(spin := None)
  {
    hide IsRun;
    var s := states[|steps|];
    var s1 := Move(SetLock(s, 1, Some(0)), 0, ScanAt(1));
    states', steps' := Extend(states, steps, Look(0), s1);
    var s2 := Move(SetAsleep(SetLock(s1, 1, None), 1, false), 0, Scan(2));
    states', steps' := Extend(states', steps', Wake(0), s2);
    var s3 := Move(s2, 0, Out).(spin := None);
    states', steps' := Extend(states', steps', Finish(0), s3);
  }

  // A process falls asleep on a lock that has just become free, the releaser's scan finds it, and
  // it gets the lock.
  lemma SleepsOnFreeLock() returns (states: seq<State>, steps: seq<Step>, n: nat)
    ensures IsRun(states, steps) && n < |steps| && |states[n].procs| == 2
    ensures states[n].procs[1].asleep && !states[n].locked && At(states[|steps|], 1, Hold)
  {
    var s := State(None, false, None, [Proc(Out, false, None), Proc(Out, false, None)]);
    states, steps := [s], [];
    assert IsRun(states, steps);
    hide IsRun;
    states, steps := Extend(states, steps, Call(0), Move(s, 0, Wait));
    states, steps := Acquires(states, steps, 0);
    states, steps := Extend(states, steps, Call(1), Move(states[|steps|], 1, Wait));
    states, steps := Contends(states, steps, 1);
    states, steps := SleepsLate(states, steps);
    n := |steps|;
    ghost var first := states;
    states, steps := ScanPasses(states, steps);
    states, steps := ScanWakes(states, steps);
    assert states[n] == first[n];
    states, steps := GetsIt(states, steps);
    assert states[n] == first[n];
  }

  lemma GetsIt(states: seq<State>, steps: seq<Step>) returns (states': seq<State>, steps': seq<Step>)
    requires IsRun(states, steps) && var s := states[|steps|];
             At(s, 1, Asleep) && !s.procs[1].asleep && s.procs[1].plock == None && s.spin == None && !s.locked
    ensures IsRun(states', steps') && states <= states' && At(states'[|steps'|], 1, Hold)
  {
    hide IsRun;
    var s := states[|steps|];
    var s1 := Move(SetLock(s, 1, Some(1)), 1, Resume);
    states', steps' := Extend(states, steps, SwitchBack(1), s1);
    var s2 := Move(SetLock(s1, 1, None), 1, Wait);
    states', steps' := Extend(states', steps', WakeUp(1), s2);
    states', steps' := Acquires(states', steps', 1);
  }
}
