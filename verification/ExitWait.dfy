/** exit, wait, fork and reparent under wait_lock: kernel/proc.c.

    Threads of all processes interleave; a step is what a thread does under one p->lock, or between
    two lock operations.  wait_lock is a field, since exit and wait hold it over many steps; so is
    the one p->lock that matters over two steps, that of a process between giving up wait_lock in
    sleep and being asleep.  READY stands for RUNNABLE or RUNNING: dispatching is module Scheduler's. */
module ExitWait {
  import opened Options

  const NPROC: nat := 64

  datatype PState = UNUSED | USED | READY | SLEEPING | ZOMBIE

  /** Where a thread is: elsewhere; in fork with the new process, before and after its parent is
      recorded; in exit, at entry i of reparent's loop, in the wakeup(initproc) for entry i about
      to look at process j, in wakeup(p->parent) about to look at j, before becoming a ZOMBIE, and
      after; in wait, at entry i of the loop, past the test of killed, in sleep before and after going
      to sleep, and before taking wait_lock again. */
  datatype Pc =
    | Idle
    | Fork1(child: nat) | Fork2(child: nat)
    | Reparent(i: nat) | WakeInit(i: nat, j: nat) | WakeParent(j: nat) | Dying | Dead
    | Scan(i: nat, kids: bool) | Sleepy | Falling | Asleep | Relock

  /** locked: the process holds its own p->lock, in sleep.  maker: the process that is creating it. */
  datatype Proc = Proc(state: PState, parent: Option<nat>, pc: Pc, locked: bool, killed: bool, maker: Option<nat>)

  datatype State = State(procs: seq<Proc>, waitLock: Option<nat>, init: nat)

  datatype Step =
    | Alloc(p: nat, child: nat) | ForkFail(p: nat) | SetParent(p: nat) | Start(p: nat)
    | ExitLock(p: nat) | ReparentStep(p: nat) | WakeInitStep(p: nat) | WakeParentStep(p: nat) | Die(p: nat)
    | WaitLock(p: nat) | ScanStep(p: nat, copied: bool)
    | ScanEnd(p: nat) | SleepLock(p: nat) | SleepDone(p: nat) | Resume(p: nat) | Reacquire(p: nat)
    | Kill(p: nat)

  predicate Shape(s: State) {
    |s.procs| == NPROC && s.init < NPROC
  }

  function Put(s: State, p: nat, x: Proc): State
    requires p < |s.procs|
  {
    s.(procs := s.procs[p := x])
  }

  function Go(s: State, p: nat, pc: Pc): State
    requires p < |s.procs|
  {
    Put(s, p, s.procs[p].(pc := pc))
  }

  /** freeproc. */
  function Freed(): Proc {
    Proc(UNUSED, None, Idle, false, false, None)
  }

  /** wakeup's treatment of one process. */
  function Woken(x: Proc): Proc {
    if x.state == SLEEPING then x.(state := READY) else x
  }

  predicate Next(s: State, step: Step, s': State)
    requires Shape(s)
  {
    && step.p < NPROC
    && var p := step.p;
       var x := s.procs[p];
       && (step.Kill? || x.state == READY)
       && match step
          case Alloc(_, c) =>
            && x.pc == Idle && c < NPROC && s.procs[c].state == UNUSED
            && s' == Go(Put(s, c, s.procs[c].(state := USED, maker := Some(p))), p, Fork1(c))
          case ForkFail(_) => x.pc.Fork1? && x.pc.child < NPROC && s' == Go(Put(s, x.pc.child, Freed()), p, Idle)
          case SetParent(_) =>
            && x.pc.Fork1? && x.pc.child < NPROC && s.waitLock == None
            && s' == Go(Put(s, x.pc.child, s.procs[x.pc.child].(parent := Some(p))), p, Fork2(x.pc.child))
          case Start(_) =>
            && x.pc.Fork2? && x.pc.child < NPROC
            && s' == Go(Put(s, x.pc.child, s.procs[x.pc.child].(state := READY, maker := None)), p, Idle)
          case ExitLock(_) => x.pc == Idle && p != s.init && s.waitLock == None
            && s' == Go(s, p, Reparent(0)).(waitLock := Some(p))
          case ReparentStep(_) =>
            && x.pc.Reparent?
            && var i := x.pc.i;
               if i >= NPROC then s' == Go(s, p, WakeParent(0))
               else if s.procs[i].parent == Some(p) then
                 s' == Go(Put(s, i, s.procs[i].(parent := Some(s.init))), p, WakeInit(i, 0))
               else s' == Go(s, p, Reparent(i + 1))
          case WakeInitStep(_) =>
            && x.pc.WakeInit?
            && var j := x.pc.j;
               if j >= NPROC then s' == Go(s, p, Reparent(x.pc.i + 1))
               else if j == p then s' == Go(s, p, WakeInit(x.pc.i, j + 1))
               else !s.procs[j].locked
                    && s' == Go(Put(s, j, if j == s.init then Woken(s.procs[j]) else s.procs[j]), p,
                       WakeInit(x.pc.i, j + 1))
          case WakeParentStep(_) =>
            && x.pc.WakeParent?
            && var j := x.pc.j;
               if j >= NPROC then s' == Go(s, p, Dying)
               else if j == p then s' == Go(s, p, WakeParent(j + 1))
               else !s.procs[j].locked
                    && s' == Go(Put(s, j, if x.parent == Some(j) then Woken(s.procs[j]) else s.procs[j]), p,
                       WakeParent(j + 1))
          case Die(_) => x.pc == Dying && s' == Put(s, p, x.(state := ZOMBIE, pc := Dead)).(waitLock := None)
          case WaitLock(_) => x.pc == Idle && s.waitLock == None && s' == Go(s, p, Scan(0, false)).(waitLock := Some(p))
          case ScanStep(_, copied) =>
            && x.pc.Scan? && x.pc.i < NPROC
            && var i := x.pc.i;
               if s.procs[i].parent != Some(p) then s' == Go(s, p, Scan(i + 1, x.pc.kids))
               else
                 && !s.procs[i].locked
                 && if s.procs[i].state != ZOMBIE then s' == Go(s, p, Scan(i + 1, true))
                    else if copied then s' == Go(Put(s, i, Freed()), p, Idle).(waitLock := None)
                    else s' == Go(s, p, Idle).(waitLock := None)
          case ScanEnd(_) =>
            && x.pc.Scan? && x.pc.i >= NPROC
            && if !x.pc.kids || x.killed then s' == Go(s, p, Idle).(waitLock := None)
               else s' == Go(s, p, Sleepy)
          case SleepLock(_) =>
            x.pc == Sleepy && s' == Put(s, p, x.(pc := Falling, locked := true)).(waitLock := None)
          case SleepDone(_) => x.pc == Falling && s' == Put(s, p, x.(pc := Asleep, locked := false, state := SLEEPING))
          case Resume(_) => x.pc == Asleep && s' == Go(s, p, Relock)
          case Reacquire(_) => x.pc == Relock && s.waitLock == None
            && s' == Go(s, p, Scan(0, false)).(waitLock := Some(p))
          case Kill(_) => !x.locked && s' == Put(s, p, Woken(x).(killed := true))
  }

  /** userinit: one process. */
  ghost predicate Init(s: State) {
    && Shape(s) && s.waitLock == None
    && forall i: nat :: i < NPROC ==> s.procs[i] == if i == s.init then Freed().(state := READY) else Freed()
  }

  // ---------- the invariant ----------

  predicate HasWaitLock(pc: Pc) {
    pc.Reparent? || pc.WakeInit? || pc.WakeParent? || pc.Dying? || pc.Scan? || pc.Sleepy?
  }

  /** Asleep in wait, or no longer able to avoid it. */
  predicate Committed(x: Proc) {
    x.pc == Falling || x.state == SLEEPING
  }

  ghost predicate Local(procs: seq<Proc>, init: nat, p: nat)
    requires p < |procs|
  {
    var x := procs[p];
    && (x.locked <==> x.pc == Falling) && (p == init ==> x.parent == None)
    && match x.state
       case UNUSED => x.parent == None && x.pc == Idle && x.maker == None && p != init
       case USED =>
         && x.pc == Idle && p != init && x.maker.Some? && x.maker.value < |procs|
         && procs[x.maker.value].pc == (if x.parent == None then Fork1(p) else Fork2(p))
         && (x.parent == None || x.parent == x.maker)
       case READY => x.pc != Dead && x.maker == None && (p != init ==> x.parent.Some?)
       case SLEEPING => x.pc == Asleep && x.maker == None && (p != init ==> x.parent.Some?)
       case ZOMBIE => x.pc == Dead && x.maker == None && p != init && x.parent.Some?
  }

  ghost predicate ForkOk(procs: seq<Proc>, p: nat)
    requires p < |procs|
  {
    var pc := procs[p].pc;
    (pc.Fork1? || pc.Fork2?) ==>
      && pc.child < |procs| && procs[pc.child].state == USED && procs[pc.child].maker == Some(p)
      && procs[pc.child].parent == (if pc.Fork1? then None else Some(p))
  }

  /** Every recorded parent is alive. */
  ghost predicate ParentOk(procs: seq<Proc>, q: nat)
    requires q < |procs|
  {
    procs[q].parent.Some? ==>
      var p := procs[q].parent.value;
      p < |procs| && p != q && (procs[p].state == READY || procs[p].state == SLEEPING)
  }

  /** What the holder of wait_lock has done so far. */
  ghost predicate HolderOk(procs: seq<Proc>, init: nat, p: nat)
    requires p < |procs|
  {
    var x := procs[p];
    && (x.pc.Reparent? ==> p != init && NoKidsBelow(procs, p, x.pc.i))
    && (x.pc.WakeInit? ==> p != init && NoKidsBelow(procs, p, x.pc.i + 1))
    && (x.pc.WakeParent? || x.pc == Dying ==> p != init && NoKidsBelow(procs, p, |procs|))
    && (x.pc.WakeParent? && x.parent.Some? && x.parent.value < x.pc.j && x.parent.value < |procs| ==>
         !Committed(procs[x.parent.value]))
    && (x.pc == Dying && x.parent.Some? && x.parent.value < |procs| ==> !Committed(procs[x.parent.value]))
    && (x.pc.WakeInit? && init < x.pc.j && init < |procs| ==> !Committed(procs[init]))
    && (x.pc.Scan? ==> NoZombieKidsBelow(procs, p, x.pc.i))
    && (x.pc == Sleepy ==> NoZombieKidsBelow(procs, p, |procs|))
  }

  ghost predicate NoKidsBelow(procs: seq<Proc>, p: nat, n: nat) {
    forall q: nat :: q < n && q < |procs| ==> procs[q].parent != Some(p)
  }

  ghost predicate NoZombieKidsBelow(procs: seq<Proc>, p: nat, n: nat) {
    forall q: nat :: q < n && q < |procs| && procs[q].parent == Some(p) ==> procs[q].state != ZOMBIE
  }

  /** A sleeper with a ZOMBIE child is init, and someone is on the way to wake it. */
  ghost predicate SleepOk(procs: seq<Proc>, waitLock: Option<nat>, init: nat, q: nat)
    requires q < |procs|
  {
    procs[q].state == ZOMBIE && procs[q].parent.Some? && procs[q].parent.value < |procs|
      && Committed(procs[procs[q].parent.value]) ==>
      && procs[q].parent == Some(init)
      && waitLock.Some? && waitLock.value < |procs|
      && procs[waitLock.value].pc.WakeInit? && procs[waitLock.value].pc.j <= init
  }

  ghost predicate LockOk(procs: seq<Proc>, waitLock: Option<nat>) {
    && (waitLock.Some? ==> waitLock.value < |procs|)
    && forall p: nat :: p < |procs| ==> (HasWaitLock(procs[p].pc) <==> waitLock == Some(p))
  }

  ghost predicate Inv(s: State) {
    && Shape(s) && LockOk(s.procs, s.waitLock)
    && (forall p: nat :: p < NPROC ==> Local(s.procs, s.init, p))
    && (forall p: nat :: p < NPROC ==> ForkOk(s.procs, p))
    && (forall p: nat :: p < NPROC ==> ParentOk(s.procs, p))
    && (forall p: nat :: p < NPROC ==> HolderOk(s.procs, s.init, p))
    && (forall p: nat :: p < NPROC ==> SleepOk(s.procs, s.waitLock, s.init, p))
  }

  // ---------- steps that move one thread ----------

  predicate Forking(pc: Pc) {
    pc.Fork1? || pc.Fork2?
  }

  ghost predicate AllLocal(procs: seq<Proc>, init: nat) {
    forall p: nat :: p < |procs| ==> Local(procs, init, p)
  }

  ghost predicate AllFork(procs: seq<Proc>) {
    forall p: nat :: p < |procs| ==> ForkOk(procs, p)
  }

  ghost predicate AllParent(procs: seq<Proc>) {
    forall p: nat :: p < |procs| ==> ParentOk(procs, p)
  }

  ghost predicate AllHolder(procs: seq<Proc>, init: nat) {
    forall p: nat :: p < |procs| ==> HolderOk(procs, init, p)
  }

  ghost predicate AllSleep(procs: seq<Proc>, waitLock: Option<nat>, init: nat) {
    forall p: nat :: p < |procs| ==> SleepOk(procs, waitLock, init, p)
  }

  /** A thread's place changes between two that say nothing to other processes. */
  lemma MoveLocal(procs: seq<Proc>, init: nat, p: nat, pc: Pc)
    requires AllLocal(procs, init) && AllFork(procs) && AllParent(procs) && p < |procs| && procs[p].state == READY
    requires !Forking(procs[p].pc) && !Forking(pc) && procs[p].pc != Falling && pc != Falling && pc != Dead
    ensures var procs' := procs[p := procs[p].(pc := pc)];
            AllLocal(procs', init) && AllFork(procs') && AllParent(procs')
  {
    var procs' := procs[p := procs[p].(pc := pc)];
    forall q: nat | q < |procs| ensures Local(procs', init, q) {
      assert Local(procs, init, q);
    }
    forall q: nat | q < |procs| ensures ForkOk(procs', q) {
      assert ForkOk(procs, q);
    }
    forall q: nat | q < |procs| ensures ParentOk(procs', q) {
      assert ParentOk(procs, q);
    }
  }

  lemma MoveHolder(procs: seq<Proc>, init: nat, p: nat, pc: Pc)
    requires AllHolder(procs, init) && p < |procs| && procs[p].pc != Falling && pc != Falling
    requires HolderOk(procs[p := procs[p].(pc := pc)], init, p)
    ensures AllHolder(procs[p := procs[p].(pc := pc)], init)
  {
    var procs' := procs[p := procs[p].(pc := pc)];
    forall q: nat | q < |procs| ensures HolderOk(procs', init, q) {
      if q != p {
        assert HolderOk(procs, init, q);
        var x := procs[q];
        assert x.pc.Reparent? ==> NoKidsBelow(procs', q, x.pc.i);
        assert x.pc.WakeInit? ==> NoKidsBelow(procs', q, x.pc.i + 1);
        assert x.pc.Scan? ==> NoZombieKidsBelow(procs', q, x.pc.i);
        assert x.pc == Sleepy ==> NoZombieKidsBelow(procs', q, |procs'|);
        assert x.pc.WakeParent? || x.pc == Dying ==> NoKidsBelow(procs', q, |procs'|);
      }
    }
  }

  lemma MoveSleep(procs: seq<Proc>, waitLock: Option<nat>, waitLock': Option<nat>, init: nat, p: nat, pc: Pc)
    requires AllSleep(procs, waitLock, init) && p < |procs| && procs[p].pc != Falling && pc != Falling
    requires AllSleep(procs, None, init) || (waitLock == waitLock' == Some(p) && pc.WakeInit? && pc.j <= init)
             || waitLock == waitLock' != Some(p)
    ensures AllSleep(procs[p := procs[p].(pc := pc)], waitLock', init)
  {
    var procs' := procs[p := procs[p].(pc := pc)];
    forall q: nat | q < |procs| ensures SleepOk(procs', waitLock', init, q) {
      assert SleepOk(procs, waitLock, init, q);
      assert AllSleep(procs, None, init) ==> SleepOk(procs, None, init, q);
    }
  }

  lemma MoveLock(procs: seq<Proc>, waitLock: Option<nat>, waitLock': Option<nat>, p: nat, pc: Pc)
    requires LockOk(procs, waitLock) && p < |procs|
             && (waitLock == None || waitLock == Some(p) || waitLock' == waitLock)
    requires waitLock' == (if HasWaitLock(pc) then Some(p) else if waitLock == Some(p) then None else waitLock)
    ensures LockOk(procs[p := procs[p].(pc := pc)], waitLock')
  {
  }

  lemma MoveInv(s: State, p: nat, pc: Pc, waitLock: Option<nat>)
    requires Inv(s) && p < NPROC && s.procs[p].state == READY
    requires !Forking(s.procs[p].pc) && !Forking(pc) && s.procs[p].pc != Falling && pc != Falling && pc != Dead
    requires HolderOk(s.procs[p := s.procs[p].(pc := pc)], s.init, p)
    requires s.waitLock == None || s.waitLock == Some(p) || waitLock == s.waitLock
    requires waitLock == (if HasWaitLock(pc) then Some(p) else if s.waitLock == Some(p) then None else s.waitLock)
    requires AllSleep(s.procs, None, s.init) || (s.waitLock == waitLock == Some(p) && pc.WakeInit? && pc.j <= s.init)
             || s.waitLock == waitLock != Some(p)
    ensures Inv(Go(s, p, pc).(waitLock := waitLock))
  {
    MoveLocal(s.procs, s.init, p, pc);
    MoveHolder(s.procs, s.init, p, pc);
    MoveSleep(s.procs, s.waitLock, waitLock, s.init, p, pc);
    MoveLock(s.procs, s.waitLock, waitLock, p, pc);
  }

  /** Unless a holder is on its way to init, no sleeper has a ZOMBIE child. */
  lemma NoSleeperWaits(s: State)
    requires Inv(s) && (s.waitLock.Some? && s.waitLock.value < NPROC ==>
               !(s.procs[s.waitLock.value].pc.WakeInit? && s.procs[s.waitLock.value].pc.j <= s.init))
    ensures AllSleep(s.procs, None, s.init)
  {
    forall q: nat | q < NPROC ensures SleepOk(s.procs, None, s.init, q) {
      assert SleepOk(s.procs, s.waitLock, s.init, q);
    }
  }

  // ---------- waking ----------

  lemma RouseInv(s: State, j: nat, killed: bool)
    requires Inv(s) && j < NPROC
    ensures Inv(Put(s, j, Woken(s.procs[j]).(killed := killed)))
    ensures AllSleep(s.procs, None, s.init) ==>
              AllSleep(s.procs[j := Woken(s.procs[j]).(killed := killed)], None, s.init)
  {
    var procs' := s.procs[j := Woken(s.procs[j]).(killed := killed)];
    RouseLocal(s.procs, s.init, j, killed);
    RouseHolder(s.procs, s.init, j, killed);
    forall q: nat | q < NPROC ensures SleepOk(procs', s.waitLock, s.init, q) {
      assert SleepOk(s.procs, s.waitLock, s.init, q);
    }
    if AllSleep(s.procs, None, s.init) {
      forall q: nat | q < NPROC ensures SleepOk(procs', None, s.init, q) {
        assert SleepOk(s.procs, None, s.init, q);
      }
    }
  }

  lemma RouseLocal(procs: seq<Proc>, init: nat, j: nat, killed: bool)
    requires AllLocal(procs, init) && AllFork(procs) && AllParent(procs) && j < |procs|
    ensures var procs' := procs[j := Woken(procs[j]).(killed := killed)];
            AllLocal(procs', init) && AllFork(procs') && AllParent(procs')
  {
    var procs' := procs[j := Woken(procs[j]).(killed := killed)];
    forall q: nat | q < |procs| ensures Local(procs', init, q) {
      assert Local(procs, init, q);
    }
    forall q: nat | q < |procs| ensures ForkOk(procs', q) {
      assert ForkOk(procs, q);
    }
    forall q: nat | q < |procs| ensures ParentOk(procs', q) {
      assert ParentOk(procs, q);
    }
  }

  lemma RouseHolder(procs: seq<Proc>, init: nat, j: nat, killed: bool)
    requires AllHolder(procs, init) && j < |procs|
    ensures AllHolder(procs[j := Woken(procs[j]).(killed := killed)], init)
  {
    var procs' := procs[j := Woken(procs[j]).(killed := killed)];
    forall q: nat | q < |procs| ensures HolderOk(procs', init, q) {
      assert HolderOk(procs, init, q);
      var x := procs[q];
      assert x.pc.Reparent? ==> NoKidsBelow(procs', q, x.pc.i);
      assert x.pc.WakeInit? ==> NoKidsBelow(procs', q, x.pc.i + 1);
      assert x.pc.Scan? ==> NoZombieKidsBelow(procs', q, x.pc.i);
      assert x.pc == Sleepy ==> NoZombieKidsBelow(procs', q, |procs'|);
      assert x.pc.WakeParent? || x.pc == Dying ==> NoKidsBelow(procs', q, |procs'|);
    }
  }

  // ---------- the steps ----------

  predicate Moves(step: Step) {
    step.ExitLock? || step.WaitLock? || step.Resume? || step.Reacquire?
  }

  lemma MovesInv(s: State, step: Step, s': State)
    requires Inv(s) && Moves(step) && Next(s, step, s')
    ensures Inv(s')
  {
    var p := step.p;
    assert Local(s.procs, s.init, p) && (HasWaitLock(s.procs[p].pc) <==> s.waitLock == Some(p));
    if !step.Resume? { NoSleeperWaits(s); }
    MoveInv(s, p, s'.procs[p].pc, s'.waitLock);
  }

  lemma ReparentSkipInv(s: State, p: nat, s': State)
    requires Inv(s) && p < NPROC && Next(s, ReparentStep(p), s') && s.procs[p].pc.Reparent?
    requires s.procs[p].pc.i >= NPROC || s.procs[s.procs[p].pc.i].parent != Some(p)
    ensures Inv(s')
  {
    assert Local(s.procs, s.init, p) && HolderOk(s.procs, s.init, p)
      && (HasWaitLock(s.procs[p].pc) <==> s.waitLock == Some(p));
    NoSleeperWaits(s);
    MoveInv(s, p, s'.procs[p].pc, s'.waitLock);
  }

  /** wakeup(initproc) comes to init: that process, then the thread. */
  lemma RouseInit(s: State, p: nat, s1: State)
    requires Inv(s) && p < NPROC && p != s.init && !s.procs[s.init].locked
             && s1 == Put(s, s.init, Woken(s.procs[s.init]))
    ensures Inv(s1) && !Committed(s1.procs[s.init]) && AllSleep(s1.procs, None, s.init)
  {
    var j := s.init;
    assert Woken(s.procs[j]).(killed := s.procs[j].killed) == Woken(s.procs[j]);
    RouseInv(s, j, s.procs[j].killed);
    assert Local(s.procs, s.init, j);
    InitAwake(s1);
  }

  lemma WakeInitHere(s: State, p: nat, s': State)
    requires Inv(s) && p < NPROC && Next(s, WakeInitStep(p), s') && s.procs[p].pc.WakeInit? && s.procs[p].pc.j == s.init
    ensures Inv(s')
  {
    var x, s1 := s.procs[p], Put(s, s.init, Woken(s.procs[s.init]));
    assert HolderOk(s.procs, s.init, p);
    RouseInit(s, p, s1);
    PassInit(s1, p);
  }

  lemma PassInit(s: State, p: nat)
    requires Inv(s) && p < NPROC && s.procs[p].state == READY && s.procs[p].pc.WakeInit?
    requires !Committed(s.procs[s.init]) && AllSleep(s.procs, None, s.init)
    ensures Inv(Go(s, p, WakeInit(s.procs[p].pc.i, s.procs[p].pc.j + 1)))
  {
    var x := s.procs[p];
    assert HolderOk(s.procs, s.init, p) && (HasWaitLock(x.pc) <==> s.waitLock == Some(p));
    MoveInv(s, p, WakeInit(x.pc.i, x.pc.j + 1), s.waitLock);
  }

  lemma WakeInitElsewhere(s: State, p: nat, s': State)
    requires Inv(s) && p < NPROC && Next(s, WakeInitStep(p), s') && s.procs[p].pc.WakeInit? && s.procs[p].pc.j != s.init
    ensures Inv(s')
  {
    var x := s.procs[p];
    var j := x.pc.j;
    assert Local(s.procs, s.init, p) && HolderOk(s.procs, s.init, p) && (HasWaitLock(x.pc) <==> s.waitLock == Some(p));
    if j > s.init { NoSleeperWaits(s); }
    MoveInv(s, p, s'.procs[p].pc, s.waitLock);
    assert j < NPROC && j != p ==> s.procs[j := s.procs[j]] == s.procs;
  }

  lemma InitAwake(s: State)
    requires Inv(s) && !Committed(s.procs[s.init])
    ensures AllSleep(s.procs, None, s.init)
  {
    forall q: nat | q < NPROC ensures SleepOk(s.procs, None, s.init, q) {
      assert SleepOk(s.procs, s.waitLock, s.init, q);
    }
  }

  lemma WakeParentStepInv(s: State, p: nat, s': State)
    requires Inv(s) && Next(s, WakeParentStep(p), s')
    ensures Inv(s')
  {
    var x := s.procs[p];
    var j := x.pc.j;
    NoSleeperWaits(s);
    if j < NPROC && j != p && x.parent == Some(j) {
      WakeParentHere(s, p, s');
    } else {
      assert HolderOk(s.procs, s.init, p) && ParentOk(s.procs, p) && (HasWaitLock(x.pc) <==> s.waitLock == Some(p));
      MoveInv(s, p, s'.procs[p].pc, s.waitLock);
      assert j < NPROC && j != p ==> s.procs[j := s.procs[j]] == s.procs;
    }
  }

  lemma WakeParentHere(s: State, p: nat, s': State)
    requires Inv(s) && Next(s, WakeParentStep(p), s') && AllSleep(s.procs, None, s.init)
    requires var x := s.procs[p]; x.pc.j < NPROC && x.pc.j != p && x.parent == Some(x.pc.j)
    ensures Inv(s')
  {
    var j := s.procs[p].pc.j;
    var s1 := Put(s, j, Woken(s.procs[j]));
    assert Woken(s.procs[j]).(killed := s.procs[j].killed) == Woken(s.procs[j]);
    RouseInv(s, j, s.procs[j].killed);
    assert Local(s.procs, s.init, j);
    NoSleeperWaits(s1);
    PassParent(s1, p);
  }

  lemma PassParent(s: State, p: nat)
    requires Inv(s) && p < NPROC && s.procs[p].state == READY && s.procs[p].pc.WakeParent?
    requires s.procs[p].parent == Some(s.procs[p].pc.j) && s.procs[p].pc.j < NPROC
    requires !Committed(s.procs[s.procs[p].pc.j]) && AllSleep(s.procs, None, s.init)
    ensures Inv(Go(s, p, WakeParent(s.procs[p].pc.j + 1)))
  {
    var x := s.procs[p];
    assert HolderOk(s.procs, s.init, p) && (HasWaitLock(x.pc) <==> s.waitLock == Some(p));
    MoveInv(s, p, WakeParent(x.pc.j + 1), s.waitLock);
  }

  lemma KillInv(s: State, p: nat, s': State)
    requires Inv(s) && Next(s, Kill(p), s')
    ensures Inv(s')
  {
    RouseInv(s, p, true);
  }

  lemma ReparentHitLocal(s: State, p: nat, s': State)
    requires Inv(s) && p < NPROC && Next(s, ReparentStep(p), s') && s.procs[p].pc.Reparent?
    requires s.procs[p].pc.i < NPROC && s.procs[s.procs[p].pc.i].parent == Some(p)
    ensures AllLocal(s'.procs, s.init) && AllFork(s'.procs)
  {
    var i := s.procs[p].pc.i;
    assert Local(s.procs, s.init, i) && Local(s.procs, s.init, p) && HolderOk(s.procs, s.init, p);
    forall q: nat | q < NPROC ensures Local(s'.procs, s.init, q) && ForkOk(s'.procs, q) {
      assert Local(s.procs, s.init, q) && ForkOk(s.procs, q);
    }
  }

  lemma ReparentHitInv(s: State, p: nat, s': State)
    requires Inv(s) && p < NPROC && Next(s, ReparentStep(p), s') && s.procs[p].pc.Reparent?
    requires s.procs[p].pc.i < NPROC && s.procs[s.procs[p].pc.i].parent == Some(p)
    ensures Inv(s')
  {
    var i := s.procs[p].pc.i;
    ReparentHitLocal(s, p, s');
    assert HolderOk(s.procs, s.init, p) && (HasWaitLock(s.procs[p].pc) <==> s.waitLock == Some(p));
    assert Local(s.procs, s.init, i) && Local(s.procs, s.init, s.init) && ParentOk(s.procs, i);
    forall q: nat | q < NPROC ensures ParentOk(s'.procs, q) && SleepOk(s'.procs, s'.waitLock, s.init, q) {
      assert ParentOk(s.procs, q) && SleepOk(s.procs, s.waitLock, s.init, q);
    }
    forall q: nat | q < NPROC ensures HolderOk(s'.procs, s.init, q) {
      assert HasWaitLock(s.procs[q].pc) <==> s.waitLock == Some(q);
    }
  }

  lemma DieInv(s: State, p: nat, s': State)
    requires Inv(s) && Next(s, Die(p), s')
    ensures Inv(s')
  {
    assert Local(s.procs, s.init, p) && HolderOk(s.procs, s.init, p) && ParentOk(s.procs, p)
      && (HasWaitLock(s.procs[p].pc) <==> s.waitLock == Some(p));
    forall q: nat | q < NPROC ensures Local(s'.procs, s.init, q) && ForkOk(s'.procs, q) {
      assert Local(s.procs, s.init, q) && ForkOk(s.procs, q);
    }
    forall q: nat | q < NPROC ensures ParentOk(s'.procs, q) && SleepOk(s'.procs, s'.waitLock, s.init, q) {
      assert ParentOk(s.procs, q) && SleepOk(s.procs, s.waitLock, s.init, q) && s.procs[q].parent != Some(p);
    }
    forall q: nat | q < NPROC ensures HolderOk(s'.procs, s.init, q) {
      assert HasWaitLock(s.procs[q].pc) <==> s.waitLock == Some(q);
    }
  }

  /** A ZOMBIE has no children left, so its slot can be freed. */
  lemma ReapInv(s: State, i: nat)
    requires Inv(s) && i < NPROC && s.procs[i].state == ZOMBIE
    ensures Inv(Put(s, i, Freed()))
    ensures AllSleep(s.procs, None, s.init) ==> AllSleep(s.procs[i := Freed()], None, s.init)
  {
    var procs' := s.procs[i := Freed()];
    assert Local(s.procs, s.init, i);
    forall q: nat | q < NPROC ensures Local(procs', s.init, q) && ForkOk(procs', q) {
      assert Local(s.procs, s.init, q) && ForkOk(s.procs, q);
    }
    forall q: nat | q < NPROC ensures ParentOk(procs', q) {
      assert ParentOk(s.procs, q);
    }
    ReapHolder(s.procs, s.init, i);
    forall q: nat | q < NPROC
      ensures SleepOk(procs', s.waitLock, s.init, q)
              && (AllSleep(s.procs, None, s.init) ==> SleepOk(procs', None, s.init, q))
    {
      assert SleepOk(s.procs, s.waitLock, s.init, q);
      assert AllSleep(s.procs, None, s.init) ==> SleepOk(s.procs, None, s.init, q);
    }
  }

  lemma ReapHolder(procs: seq<Proc>, init: nat, i: nat)
    requires AllHolder(procs, init) && i < |procs| && !HasWaitLock(procs[i].pc)
    ensures AllHolder(procs[i := Freed()], init)
  {
    var procs' := procs[i := Freed()];
    forall q: nat | q < |procs| ensures HolderOk(procs', init, q) {
      assert HolderOk(procs, init, q);
      var x := procs[q];
      assert x.pc.Reparent? ==> NoKidsBelow(procs', q, x.pc.i);
      assert x.pc.WakeInit? ==> NoKidsBelow(procs', q, x.pc.i + 1);
      assert x.pc.Scan? ==> NoZombieKidsBelow(procs', q, x.pc.i);
      assert x.pc == Sleepy ==> NoZombieKidsBelow(procs', q, |procs'|);
      assert x.pc.WakeParent? || x.pc == Dying ==> NoKidsBelow(procs', q, |procs'|);
    }
  }

  lemma ScanReapInv(s: State, p: nat, s': State)
    requires Inv(s) && Next(s, ScanStep(p, true), s') && AllSleep(s.procs, None, s.init)
    requires var i := s.procs[p].pc.i; s.procs[i].parent == Some(p) && s.procs[i].state == ZOMBIE
    ensures Inv(s')
  {
    var i := s.procs[p].pc.i;
    assert Local(s.procs, s.init, p) && (HasWaitLock(s.procs[p].pc) <==> s.waitLock == Some(p));
    ReapInv(s, i);
    NoSleeperWaits(Put(s, i, Freed()));
    MoveInv(Put(s, i, Freed()), p, Idle, None);
  }

  lemma ScanStepInv(s: State, p: nat, copied: bool, s': State)
    requires Inv(s) && Next(s, ScanStep(p, copied), s')
    ensures Inv(s')
  {
    var i := s.procs[p].pc.i;
    assert HolderOk(s.procs, s.init, p) && (HasWaitLock(s.procs[p].pc) <==> s.waitLock == Some(p));
    NoSleeperWaits(s);
    if s.procs[i].parent == Some(p) && s.procs[i].state == ZOMBIE && copied {
      ScanReapInv(s, p, s');
    } else {
      MoveInv(s, p, s'.procs[p].pc, s'.waitLock);
    }
  }

  lemma ScanEndInv(s: State, p: nat, s': State)
    requires Inv(s) && Next(s, ScanEnd(p), s')
    ensures Inv(s')
  {
    assert Local(s.procs, s.init, p) && HolderOk(s.procs, s.init, p)
      && (HasWaitLock(s.procs[p].pc) <==> s.waitLock == Some(p));
    NoSleeperWaits(s);
    if !s.procs[p].pc.kids || s.procs[p].killed {
      MoveInv(s, p, Idle, None);
    } else {
      MoveInv(s, p, Sleepy, s.waitLock);
    }
  }

  /** Going to sleep after a search that found no ZOMBIE. */
  lemma SleepLockInv(s: State, p: nat, s': State)
    requires Inv(s) && Next(s, SleepLock(p), s')
    ensures Inv(s')
  {
    assert Local(s.procs, s.init, p) && HolderOk(s.procs, s.init, p)
      && (HasWaitLock(s.procs[p].pc) <==> s.waitLock == Some(p));
    forall q: nat | q < NPROC ensures Local(s'.procs, s.init, q) && ForkOk(s'.procs, q) {
      assert Local(s.procs, s.init, q) && ForkOk(s.procs, q);
    }
    forall q: nat | q < NPROC ensures ParentOk(s'.procs, q) && SleepOk(s'.procs, s'.waitLock, s.init, q) {
      assert ParentOk(s.procs, q) && SleepOk(s.procs, s.waitLock, s.init, q);
    }
    forall q: nat | q < NPROC ensures HolderOk(s'.procs, s.init, q) {
      assert HasWaitLock(s.procs[q].pc) <==> s.waitLock == Some(q);
    }
  }

  lemma SleepDoneInv(s: State, p: nat, s': State)
    requires Inv(s) && Next(s, SleepDone(p), s')
    ensures Inv(s')
  {
    assert Local(s.procs, s.init, p);
    forall q: nat | q < NPROC ensures Local(s'.procs, s.init, q) && ForkOk(s'.procs, q) {
      assert Local(s.procs, s.init, q) && ForkOk(s.procs, q);
    }
    forall q: nat | q < NPROC ensures ParentOk(s'.procs, q) && SleepOk(s'.procs, s'.waitLock, s.init, q) {
      assert ParentOk(s.procs, q) && SleepOk(s.procs, s.waitLock, s.init, q);
    }
    SleepHolder(s.procs, s.init, p, s'.procs[p]);
  }

  lemma SleepHolder(procs: seq<Proc>, init: nat, p: nat, y: Proc)
    requires AllHolder(procs, init) && p < |procs| && !HasWaitLock(y.pc) && y.parent == procs[p].parent
    requires (Committed(y) ==> Committed(procs[p])) && (y.state == ZOMBIE ==> procs[p].state == ZOMBIE)
    ensures AllHolder(procs[p := y], init)
  {
    var procs' := procs[p := y];
    forall q: nat | q < |procs| ensures HolderOk(procs', init, q) {
      assert HolderOk(procs, init, q);
      var x := procs[q];
      assert x.pc.Reparent? ==> NoKidsBelow(procs', q, x.pc.i);
      assert x.pc.WakeInit? ==> NoKidsBelow(procs', q, x.pc.i + 1);
      assert x.pc.Scan? ==> NoZombieKidsBelow(procs', q, x.pc.i);
      assert x.pc == Sleepy ==> NoZombieKidsBelow(procs', q, |procs'|);
      assert x.pc.WakeParent? || x.pc == Dying ==> NoKidsBelow(procs', q, |procs'|);
    }
  }

  // ---------- fork ----------

  predicate Forks(step: Step) {
    step.Alloc? || step.ForkFail? || step.SetParent? || step.Start?
  }

  /** fork touches the forking thread p and the new process c. */
  lemma AllocLocal(s: State, step: Step, s': State)
    requires Inv(s) && step.Alloc? && Next(s, step, s')
    ensures AllLocal(s'.procs, s.init) && AllFork(s'.procs)
  {
    assert Local(s.procs, s.init, step.p) && Local(s.procs, s.init, step.child);
    forall q: nat | q < NPROC ensures Local(s'.procs, s.init, q) {
      assert Local(s.procs, s.init, q);
    }
    forall q: nat | q < NPROC ensures ForkOk(s'.procs, q) {
      assert ForkOk(s.procs, q);
    }
  }

  lemma ForkLocal(s: State, step: Step, s': State, c: nat)
    requires Inv(s) && Forks(step) && !step.Alloc? && Next(s, step, s') && c == s.procs[step.p].pc.child
    ensures AllLocal(s'.procs, s.init) && AllFork(s'.procs)
  {
    assert Local(s.procs, s.init, step.p) && ForkOk(s.procs, step.p) && Local(s.procs, s.init, c);
    forall q: nat | q < NPROC ensures Local(s'.procs, s.init, q) {
      assert Local(s.procs, s.init, q);
    }
    forall q: nat | q < NPROC ensures ForkOk(s'.procs, q) {
      assert ForkOk(s.procs, q);
    }
  }

  lemma ForkParents(s: State, step: Step, s': State, c: nat)
    requires Inv(s) && Forks(step) && Next(s, step, s')
             && c == (if step.Alloc? then step.child else s.procs[step.p].pc.child)
    ensures AllParent(s'.procs)
  {
    assert Local(s.procs, s.init, step.p) && ForkOk(s.procs, step.p) && Local(s.procs, s.init, c);
    forall q: nat | q < NPROC ensures ParentOk(s'.procs, q) {
      assert ParentOk(s.procs, q);
    }
  }

  lemma ForkSleep(s: State, step: Step, s': State, c: nat)
    requires Inv(s) && Forks(step) && Next(s, step, s')
             && c == (if step.Alloc? then step.child else s.procs[step.p].pc.child)
    ensures AllSleep(s'.procs, s'.waitLock, s.init)
  {
    assert Local(s.procs, s.init, step.p) && ForkOk(s.procs, step.p) && Local(s.procs, s.init, c);
    assert (HasWaitLock(s.procs[step.p].pc) <==> s.waitLock == Some(step.p))
      && (HasWaitLock(s.procs[c].pc) <==> s.waitLock == Some(c));
    forall q: nat | q < NPROC ensures SleepOk(s'.procs, s'.waitLock, s.init, q) {
      assert SleepOk(s.procs, s.waitLock, s.init, q) && ParentOk(s.procs, q);
    }
  }

  lemma ForkLock(s: State, step: Step, s': State, c: nat)
    requires Inv(s) && Forks(step) && Next(s, step, s')
             && c == (if step.Alloc? then step.child else s.procs[step.p].pc.child)
    ensures LockOk(s'.procs, s'.waitLock)
  {
    assert ForkOk(s.procs, step.p) && Local(s.procs, s.init, c);
  }

  lemma ForkHolder(s: State, step: Step, s': State, c: nat)
    requires Inv(s) && Forks(step) && Next(s, step, s')
             && c == (if step.Alloc? then step.child else s.procs[step.p].pc.child)
    ensures AllHolder(s'.procs, s.init)
  {
    var p := step.p;
    assert Local(s.procs, s.init, p) && ForkOk(s.procs, p) && Local(s.procs, s.init, c);
    if step.SetParent? {
      forall q: nat | q < NPROC ensures HolderOk(s'.procs, s.init, q) {
        assert HasWaitLock(s.procs[q].pc) <==> s.waitLock == Some(q);
      }
    } else {
      SleepHolder(s.procs, s.init, p, s'.procs[p]);
      if step.ForkFail? {
        ReapHolder(s.procs, s.init, c);
        SleepHolder(s.procs[c := Freed()], s.init, p, s'.procs[p]);
      } else {
        SleepHolder(s.procs, s.init, c, s'.procs[c]);
        SleepHolder(s.procs[c := s'.procs[c]], s.init, p, s'.procs[p]);
      }
    }
  }

  lemma ForkInv(s: State, step: Step, s': State)
    requires Inv(s) && Forks(step) && Next(s, step, s')
    ensures Inv(s')
  {
    var c := if step.Alloc? then step.child else s.procs[step.p].pc.child;
    if step.Alloc? { AllocLocal(s, step, s'); } else { ForkLocal(s, step, s', c); }
    ForkParents(s, step, s', c);
    ForkSleep(s, step, s', c);
    ForkLock(s, step, s', c);
    ForkHolder(s, step, s', c);
  }

  lemma NextInv(s: State, step: Step, s': State)
    requires Inv(s) && Next(s, step, s')
    ensures Inv(s')
  {
    if Forks(step) {
      ForkInv(s, step, s');
    } else if Moves(step) {
      MovesInv(s, step, s');
    } else if step.ReparentStep? {
      var i := s.procs[step.p].pc.i;
      if i < NPROC && s.procs[i].parent == Some(step.p) { ReparentHitInv(s, step.p, s'); }
        else { ReparentSkipInv(s, step.p, s'); }
    } else if step.WakeInitStep? {
      if s.procs[step.p].pc.j == s.init { WakeInitHere(s, step.p, s'); } else { WakeInitElsewhere(s, step.p, s'); }
    } else if step.WakeParentStep? {
      WakeParentStepInv(s, step.p, s');
    } else if step.Die? {
      DieInv(s, step.p, s');
    } else if step.ScanStep? {
      ScanStepInv(s, step.p, step.copied, s');
    } else if step.ScanEnd? {
      ScanEndInv(s, step.p, s');
    } else if step.SleepLock? {
      SleepLockInv(s, step.p, s');
    } else if step.SleepDone? {
      SleepDoneInv(s, step.p, s');
    } else {
      KillInv(s, step.p, s');
    }
  }

  // ---------- whole runs ----------

  ghost predicate IsRun(run: seq<State>, steps: seq<Step>) {
    && |run| == |steps| + 1 && Init(run[0]) && (forall k: nat :: k < |run| ==> Shape(run[k]))
    && forall k: nat :: k < |steps| ==> Next(run[k], steps[k], run[k + 1])
  }

  lemma {:induction false} RunInv(run: seq<State>, steps: seq<Step>, k: nat)
    requires IsRun(run, steps) && k < |run|
    ensures Inv(run[k])
  {
    if k > 0 {
      RunInv(run, steps, k - 1);
      NextInv(run[k - 1], steps[k - 1], run[k]);
    }
  }

  /** Whoever holds wait_lock, every recorded parent is neither UNUSED nor ZOMBIE. */
  lemma ParentsAlive(run: seq<State>, steps: seq<Step>, k: nat, q: nat)
    requires IsRun(run, steps) && k < |run| && q < NPROC && run[k].procs[q].parent.Some?
    ensures var p := run[k].procs[q].parent.value;
            p < NPROC && p != q && run[k].procs[p].state != UNUSED && run[k].procs[p].state != ZOMBIE
  {
    RunInv(run, steps, k);
    assert ParentOk(run[k].procs, q);
  }

  /** When wait_lock is free, no process that sleeps in wait, or is about to, has a ZOMBIE child. */
  lemma NoSleeperMissesZombie(run: seq<State>, steps: seq<Step>, k: nat, w: nat, q: nat)
    requires IsRun(run, steps) && k < |run| && w < NPROC && q < NPROC && run[k].waitLock == None
    requires Committed(run[k].procs[w]) && run[k].procs[q].parent == Some(w)
    ensures run[k].procs[q].state != ZOMBIE
  {
    RunInv(run, steps, k);
    assert SleepOk(run[k].procs, run[k].waitLock, run[k].init, q);
  }

  /** A ZOMBIE has a living parent to wait for it, and no children of its own. */
  lemma ZombiesHaveParents(run: seq<State>, steps: seq<Step>, k: nat, z: nat, q: nat)
    requires IsRun(run, steps) && k < |run| && z < NPROC && q < NPROC && run[k].procs[z].state == ZOMBIE
    ensures run[k].procs[z].parent.Some? && run[k].procs[q].parent != Some(z)
  {
    RunInv(run, steps, k);
    assert Local(run[k].procs, run[k].init, z) && ParentOk(run[k].procs, q);
  }

  // ---------- what wait knows and when it returns ----------

  /** havekids says whether a child was met so far. */
  ghost predicate KidsOk(s: State, p: nat)
    requires Shape(s) && p < NPROC
  {
    && (s.procs[p].pc.Scan? ==> (s.procs[p].pc.kids <==> HasChildBelow(s.procs, p, s.procs[p].pc.i)))
    && (s.procs[p].pc == Sleepy ==> HasChildBelow(s.procs, p, NPROC))
  }

  ghost predicate HasChildBelow(procs: seq<Proc>, p: nat, n: nat) {
    exists q: nat :: q < n && q < |procs| && procs[q].parent == Some(p)
  }

  predicate Counting(pc: Pc) {
    pc.Scan? || pc == Sleepy
  }

  /** While p scans it holds wait_lock, and nobody else can change a parent. */
  lemma OthersKeepParents(s: State, step: Step, s': State, p: nat)
    requires Inv(s) && Next(s, step, s') && p < NPROC && Counting(s.procs[p].pc) && step.p != p
    ensures Shape(s') && s'.procs[p].pc == s.procs[p].pc
    ensures forall q: nat :: q < NPROC ==> s'.procs[q].parent == s.procs[q].parent
  {
    assert HasWaitLock(s.procs[p].pc) && !HasWaitLock(s.procs[step.p].pc);
    assert Local(s.procs, s.init, p) && ForkOk(s.procs, step.p);
  }

  lemma SameKids(procs: seq<Proc>, procs': seq<Proc>, p: nat, n: nat)
    requires |procs'| == |procs| && forall q: nat :: q < |procs| ==> procs'[q].parent == procs[q].parent
    ensures HasChildBelow(procs', p, n) <==> HasChildBelow(procs, p, n)
  {
    if q: nat :| q < n && q < |procs| && procs[q].parent == Some(p) { assert procs'[q].parent == Some(p); }
    if q: nat :| q < n && q < |procs'| && procs'[q].parent == Some(p) { assert procs[q].parent == Some(p); }
  }

  lemma KidsStep(s: State, step: Step, s': State, p: nat)
    requires Inv(s) && Next(s, step, s') && Shape(s') && p < NPROC && KidsOk(s, p)
    ensures KidsOk(s', p)
  {
    if step.p == p {
      if step.ScanStep? && s'.procs[p].pc.Scan? {
        ScanKids(s, s', p);
      } else if (step.Kill? || step.ScanEnd?) && Counting(s.procs[p].pc) {
        StillKids(s, s', p);
      }
    } else if Counting(s.procs[p].pc) {
      OthersKeepParents(s, step, s', p);
      StillKids(s, s', p);
    } else {
      NotScanning(s, step, s', p);
    }
  }

  lemma StillKids(s: State, s': State, p: nat)
    requires Shape(s) && Shape(s') && p < NPROC && KidsOk(s, p) && Counting(s.procs[p].pc)
    requires forall q: nat :: q < NPROC ==> s'.procs[q].parent == s.procs[q].parent
    requires || s'.procs[p].pc == s.procs[p].pc || !Counting(s'.procs[p].pc)
             || (s.procs[p].pc.Scan? && s.procs[p].pc.i >= NPROC && s.procs[p].pc.kids && s'.procs[p].pc == Sleepy)
    ensures KidsOk(s', p)
  {
    SameKids(s.procs, s'.procs, p, if s.procs[p].pc.Scan? then s.procs[p].pc.i else NPROC);
    assert s.procs[p].pc.Scan? && s.procs[p].pc.i >= NPROC ==>
        (HasChildBelow(s'.procs, p, s.procs[p].pc.i) ==> HasChildBelow(s'.procs, p, NPROC));
  }

  /** Nobody but p itself makes p enter the scan. */
  lemma NotScanning(s: State, step: Step, s': State, p: nat)
    requires Inv(s) && Next(s, step, s') && Shape(s') && p < NPROC && step.p != p && !Counting(s.procs[p].pc)
    ensures !Counting(s'.procs[p].pc)
  {
  }

  /** One more entry looked at. */
  lemma ScanKids(s: State, s': State, p: nat)
    requires Shape(s) && Shape(s') && p < NPROC && KidsOk(s, p) && s.procs[p].pc.Scan? && s.procs[p].pc.i < NPROC
    requires var i := s.procs[p].pc.i;
             s' == Go(s, p, Scan(i + 1, s.procs[p].pc.kids || s.procs[i].parent == Some(p)))
    ensures KidsOk(s', p)
  {
    var i := s.procs[p].pc.i;
    assert HasChildBelow(s'.procs, p, i + 1) <==> HasChildBelow(s.procs, p, i) || s.procs[i].parent == Some(p) by {
      if q: nat :| q < i && q < |s.procs| && s.procs[q].parent == Some(p) { assert s'.procs[q].parent == Some(p); }
      if s.procs[i].parent == Some(p) { assert s'.procs[i].parent == Some(p); }
      if q: nat :| q < i + 1 && q < |s'.procs| && s'.procs[q].parent == Some(p) { assert s.procs[q].parent == Some(p); }
    }
  }

  /** At entry i of wait's loop, havekids is set exactly if an entry before i is a child. */
  lemma {:induction false} HaveKidsExact(run: seq<State>, steps: seq<Step>, k: nat, p: nat)
    requires IsRun(run, steps) && k < |run| && p < NPROC
    ensures KidsOk(run[k], p)
  {
    if k > 0 {
      HaveKidsExact(run, steps, k - 1, p);
      RunInv(run, steps, k - 1);
      KidsStep(run[k - 1], steps[k - 1], run[k], p);
    }
  }

  /** wait returns with a reaped child; with a ZOMBIE child whose status could not be delivered; because
      the process was killed; or because it has no children at all. */
  lemma WaitReturns(run: seq<State>, steps: seq<Step>, k: nat, p: nat)
    requires IsRun(run, steps) && k < |steps| && p < NPROC && run[k].procs[p].pc.Scan? && run[k + 1].procs[p].pc == Idle
    ensures steps[k].p == p && run[k + 1].waitLock == None
    ensures var s, step, s' := run[k], steps[k], run[k + 1];
            || (exists z: nat :: z < NPROC && Reaped(s, s', p, z))
            || (step.ScanStep? && !step.copied && SameButPc(s, s', p) && exists z: nat :: z < NPROC && Zombie(s, p, z))
            || (s.procs[p].killed && SameButPc(s, s', p))
            || ((forall q: nat :: q < NPROC ==> s.procs[q].parent != Some(p)) && SameButPc(s, s', p))
  {
    RunInv(run, steps, k);
    HaveKidsExact(run, steps, k, p);
    var s, step, s' := run[k], steps[k], run[k + 1];
    assert Next(s, step, s');
    if step.p != p { OthersKeepParents(s, step, s', p); }
    if step.ScanStep? {
      var z := s.procs[p].pc.i;
      assert ParentOk(s.procs, z);
      assert Zombie(s, p, z);
      if step.copied { assert Reaped(s, s', p, z); }
    } else {
      assert s.procs[p].pc.kids || s.procs[p].killed || forall q: nat :: q < NPROC ==> s.procs[q].parent != Some(p);
    }
  }

  predicate Zombie(s: State, p: nat, z: nat)
    requires Shape(s) && z < NPROC
  {
    s.procs[z].parent == Some(p) && s.procs[z].state == ZOMBIE
  }

  /** The ZOMBIE child z of p is gone, and nothing else changed but p's place. */
  ghost predicate Reaped(s: State, s': State, p: nat, z: nat)
    requires Shape(s) && Shape(s') && p < NPROC && z < NPROC
  {
    && z != p && Zombie(s, p, z)
    && s'.procs == s.procs[z := Freed()][p := s.procs[p].(pc := Idle)]
  }

  ghost predicate SameButPc(s: State, s': State, p: nat)
    requires Shape(s) && Shape(s') && p < NPROC
  {
    s'.procs == s.procs[p := s.procs[p].(pc := s'.procs[p].pc)]
  }

  /** wait goes to sleep only with a child, and with none that is a ZOMBIE. */
  lemma WaitSleeps(run: seq<State>, steps: seq<Step>, k: nat, p: nat)
    requires IsRun(run, steps) && k < |steps| && p < NPROC
    requires run[k].procs[p].pc == Sleepy && run[k + 1].procs[p].pc == Falling
    ensures exists q: nat :: q < NPROC && run[k].procs[q].parent == Some(p)
    ensures forall q: nat :: q < NPROC && run[k].procs[q].parent == Some(p) ==> run[k].procs[q].state != ZOMBIE
  {
    RunInv(run, steps, k);
    HaveKidsExact(run, steps, k, p);
    var s, step, s' := run[k], steps[k], run[k + 1];
    assert Next(s, step, s');
    if step.p != p { OthersKeepParents(s, step, s', p); }
    assert HolderOk(s.procs, s.init, p);
  }

  /** Who gets a new parent: a child being forked, from its maker; a child of an exiting process, init;
      and one that is freed, none. */
  lemma ParentChanges(run: seq<State>, steps: seq<Step>, k: nat, q: nat)
    requires IsRun(run, steps) && k < |steps| && q < NPROC && run[k + 1].procs[q].parent != run[k].procs[q].parent
    ensures var old_, new_, p := run[k].procs[q].parent, run[k + 1].procs[q].parent, steps[k].p;
            p < NPROC &&
            (|| (old_ == None && new_ == Some(p) && steps[k].SetParent? && run[k].procs[q].maker == Some(p))
             || (old_ == Some(p) && new_ == Some(run[k].init) && steps[k].ReparentStep?)
             || (old_ == Some(p) && new_ == None && steps[k].ScanStep? && run[k].procs[q].state == ZOMBIE))
  {
    RunInv(run, steps, k);
    assert Next(run[k], steps[k], run[k + 1]);
    assert ForkOk(run[k].procs, steps[k].p);
  }

  /** A ZOMBIE stays one until its parent's wait frees it. */
  lemma ZombieUntilReaped(run: seq<State>, steps: seq<Step>, k: nat, z: nat)
    requires IsRun(run, steps) && k < |steps| && z < NPROC && run[k].procs[z].state == ZOMBIE
    ensures run[k + 1].procs[z].state == ZOMBIE || (steps[k].p < NPROC && Reaped(run[k], run[k + 1], steps[k].p, z))
  {
    RunInv(run, steps, k);
    var s, step, s' := run[k], steps[k], run[k + 1];
    assert Next(s, step, s');
    assert Local(s.procs, s.init, z) && ForkOk(s.procs, step.p) && ParentOk(s.procs, z);
  }

  /** In wait. */
  predicate Waiting(pc: Pc) {
    pc.Scan? || pc == Sleepy || pc == Falling || pc == Asleep || pc == Relock
  }

  /** wait comes back only from its scan; woken up, it scans again. */
  lemma WaitGoesOn(run: seq<State>, steps: seq<Step>, k: nat, p: nat)
    requires IsRun(run, steps) && k < |steps| && p < NPROC && Waiting(run[k].procs[p].pc) && !run[k].procs[p].pc.Scan?
    ensures Waiting(run[k + 1].procs[p].pc)
  {
    RunInv(run, steps, k);
    if steps[k].p != p { OthersLetWait(run[k], steps[k], run[k + 1], p); }
  }

  lemma OthersLetWait(s: State, step: Step, s': State, p: nat)
    requires Inv(s) && Shape(s') && Next(s, step, s') && p < NPROC && step.p != p && Waiting(s.procs[p].pc)
    ensures Waiting(s'.procs[p].pc)
  {
    assert Local(s.procs, s.init, p) && ForkOk(s.procs, step.p);
  }

  /** Who may change the state of process q, and how. */
  predicate StateStep(s: State, step: Step, q: nat, to: PState)
    requires Shape(s) && q < NPROC && step.p < NPROC
  {
    var x := s.procs[q];
    match x.state
    case UNUSED => step.Alloc? && step.child == q && to == USED
    case USED => x.maker == Some(step.p) && ((step.ForkFail? && to == UNUSED) || (step.Start? && to == READY))
    case READY => step.p == q && ((step.SleepDone? && to == SLEEPING) || (step.Die? && to == ZOMBIE))
    case SLEEPING =>
      to == READY && ((step.Kill? && step.p == q)
                      || (step.WakeInitStep? && q == s.init)
                      || (step.WakeParentStep? && s.procs[step.p].parent == Some(q)))
    case ZOMBIE => step.ScanStep? && x.parent == Some(step.p) && to == UNUSED
  }

  /** Every change of state is one of these: only fork makes processes, only its own exit ends one, and a
      process asleep in wait is woken by kill, by its own child's exit or, init, by a child it is given. */
  lemma LifeCycle(run: seq<State>, steps: seq<Step>, k: nat, q: nat)
    requires IsRun(run, steps) && k < |steps| && q < NPROC && run[k + 1].procs[q].state != run[k].procs[q].state
    ensures steps[k].p < NPROC && StateStep(run[k], steps[k], q, run[k + 1].procs[q].state)
  {
    RunInv(run, steps, k);
    if steps[k].p == q {
      OwnStateStep(run[k], steps[k], run[k + 1]);
    } else {
      OtherStateStep(run[k], steps[k], run[k + 1], q);
    }
  }

  lemma OwnStateStep(s: State, step: Step, s': State)
    requires Inv(s) && Shape(s') && Next(s, step, s') && s'.procs[step.p].state != s.procs[step.p].state
    ensures StateStep(s, step, step.p, s'.procs[step.p].state)
  {
    assert Local(s.procs, s.init, step.p) && ForkOk(s.procs, step.p) && ParentOk(s.procs, step.p);
  }

  lemma OtherStateStep(s: State, step: Step, s': State, q: nat)
    requires Inv(s) && Shape(s') && Next(s, step, s') && q < NPROC && q != step.p
    requires s'.procs[q].state != s.procs[q].state
    ensures StateStep(s, step, q, s'.procs[q].state)
  {
    if step.ForkFail? || step.Start? {
      assert ForkOk(s.procs, step.p);
    } else {
      OtherWoken(s, step, s', q);
    }
  }

  lemma OtherWoken(s: State, step: Step, s': State, q: nat)
    requires Shape(s) && Shape(s') && Next(s, step, s') && q < NPROC && q != step.p
    requires s'.procs[q].state != s.procs[q].state && !step.ForkFail? && !step.Start?
    ensures StateStep(s, step, q, s'.procs[q].state)
  {
  }

  /** killed is set by kill, and stays until the process is freed. */
  lemma KilledStays(run: seq<State>, steps: seq<Step>, k: nat, q: nat)
    requires IsRun(run, steps) && k < |steps| && q < NPROC
    ensures steps[k] == Kill(q) ==> run[k + 1].procs[q].killed
    ensures run[k].procs[q].killed && run[k + 1].procs[q].state != UNUSED ==> run[k + 1].procs[q].killed
    ensures !run[k].procs[q].killed && run[k + 1].procs[q].killed ==> steps[k] == Kill(q)
  {
    KilledStep(run[k], steps[k], run[k + 1], q);
  }

  lemma KilledStep(s: State, step: Step, s': State, q: nat)
    requires Shape(s) && Shape(s') && Next(s, step, s') && q < NPROC
    ensures step == Kill(q) ==> s'.procs[q].killed
    ensures s.procs[q].killed && s'.procs[q].state != UNUSED ==> s'.procs[q].killed
    ensures !s.procs[q].killed && s'.procs[q].killed ==> step == Kill(q)
  {
    if step.p != q { OthersLetKilled(s, step, s', q); }
  }

  lemma OthersLetKilled(s: State, step: Step, s': State, q: nat)
    requires Shape(s) && Shape(s') && Next(s, step, s') && q < NPROC && step.p != q
    ensures s'.procs[q].killed == s.procs[q].killed || s'.procs[q] == Freed()
  {
  }

  /** Has tested killed and will go to sleep. */
  predicate Bound(x: Proc) {
    x.pc == Sleepy || Committed(x)
  }

  /** A kill came after wait tested killed and before sleep took p->lock. */
  ghost predicate Missed(run: seq<State>, steps: seq<Step>, k: nat, q: nat)
    requires IsRun(run, steps) && k < |run| && q < NPROC
  {
    && k > 0 && Bound(run[k].procs[q]) && Bound(run[k - 1].procs[q])
    && ((steps[k - 1] == Kill(q) && run[k - 1].procs[q].pc == Sleepy) || Missed(run, steps, k - 1, q))
  }

  /** A process asleep in wait, or bound to be, has been killed exactly if the kill came in that window;
      every other kill makes wait return. */
  lemma {:induction false} KillMissedIff(run: seq<State>, steps: seq<Step>, k: nat, q: nat)
    requires IsRun(run, steps) && k < |run| && q < NPROC && Bound(run[k].procs[q])
    ensures run[k].procs[q].killed <==> Missed(run, steps, k, q)
  {
    if k > 0 {
      RunInv(run, steps, k - 1);
      BoundStep(run[k - 1], steps[k - 1], run[k], q);
      if Bound(run[k - 1].procs[q]) {
        KillMissedIff(run, steps, k - 1, q);
      }
    }
  }

  lemma BoundStep(s: State, step: Step, s': State, q: nat)
    requires Inv(s) && Shape(s') && Next(s, step, s') && q < NPROC && Bound(s'.procs[q])
    ensures !Bound(s.procs[q]) ==> !s'.procs[q].killed
    ensures Bound(s.procs[q]) ==>
              (s'.procs[q].killed <==> s.procs[q].killed || (step == Kill(q) && s.procs[q].pc == Sleepy))
  {
    if step.p == q { OwnBound(s, step, s'); } else { OthersLetBound(s, step, s', q); }
  }

  lemma OwnBound(s: State, step: Step, s': State)
    requires Inv(s) && Shape(s') && Next(s, step, s') && Bound(s'.procs[step.p])
    ensures var x, y := s.procs[step.p], s'.procs[step.p];
            if Bound(x) then y.killed <==> x.killed || (step == Kill(step.p) && x.pc == Sleepy) else !y.killed
  {
    assert Local(s.procs, s.init, step.p) && ForkOk(s.procs, step.p) && ParentOk(s.procs, step.p);
  }

  lemma OthersLetBound(s: State, step: Step, s': State, q: nat)
    requires Inv(s) && Shape(s') && Next(s, step, s') && q < NPROC && step.p != q && Bound(s'.procs[q])
    ensures Bound(s.procs[q]) && s'.procs[q].killed == s.procs[q].killed
  {
    assert Local(s.procs, s.init, q) && ForkOk(s.procs, step.p);
  }

  /** Run on by one step. */
  lemma Extend(run: seq<State>, steps: seq<Step>, step: Step, s': State)
    requires IsRun(run, steps) && Shape(s') && Next(run[|steps|], step, s')
    ensures IsRun(run + [s'], steps + [step])
  {
  }

  /** init, with one child that runs, at entry i of wait's loop. */
  function Scanning(i: nat): (s: State)
    ensures Shape(s)
  {
    var procs := seq(NPROC, j => if j == 1 then Freed().(state := READY, parent := Some(0)) else Freed());
    State(procs[0 := Freed().(state := READY, pc := Scan(i, i > 1))], Some(0), 0)
  }

  lemma FirstScan() returns (run: seq<State>, steps: seq<Step>)
    ensures IsRun(run, steps) && run[|steps|] == Scanning(0)
  {
    var s0 := State(seq(NPROC, j => if j == 0 then Freed().(state := READY) else Freed()), None, 0);
    var s1 := Go(Put(s0, 1, Freed().(state := USED, maker := Some(0))), 0, Fork1(1));
    var s2 := Go(Put(s1, 1, s1.procs[1].(parent := Some(0))), 0, Fork2(1));
    var s3 := Go(Put(s2, 1, s2.procs[1].(state := READY, maker := None)), 0, Idle);
    run, steps := [s0], [];
    Extend(run, steps, Alloc(0, 1), s1);
    run, steps := run + [s1], steps + [Alloc(0, 1)];
    Extend(run, steps, SetParent(0), s2);
    run, steps := run + [s2], steps + [SetParent(0)];
    Extend(run, steps, Start(0), s3);
    run, steps := run + [s3], steps + [Start(0)];
    assert Go(s3, 0, Scan(0, false)).(waitLock := Some(0)).procs == Scanning(0).procs;
    Extend(run, steps, WaitLock(0), Scanning(0));
    run, steps := run + [Scanning(0)], steps + [WaitLock(0)];
  }

  lemma ScanRun(i: nat) returns (run: seq<State>, steps: seq<Step>)
    requires i <= NPROC
    ensures IsRun(run, steps) && run[|steps|] == Scanning(i)
  {
    if i == 0 {
      run, steps := FirstScan();
    } else {
      run, steps := ScanRun(i - 1);
      assert Go(Scanning(i - 1), 0, Scan(i, i > 1)).procs == Scanning(i).procs;
      Extend(run, steps, ScanStep(0, true), Scanning(i));
      run, steps := run + [Scanning(i)], steps + [ScanStep(0, true)];
    }
  }

  /** init is killed in that window, and sleeps although it is killed. */
  lemma KillCanBeMissed() returns (run: seq<State>, steps: seq<Step>)
    ensures IsRun(run, steps) && run[|steps|].procs[0].state == SLEEPING && run[|steps|].procs[0].killed
  {
    run, steps := ScanRun(NPROC);
    var s0 := Scanning(NPROC);
    var s1 := Go(s0, 0, Sleepy);
    var s2 := Put(s1, 0, s1.procs[0].(killed := true));
    var s3 := Put(s2, 0, s2.procs[0].(pc := Falling, locked := true)).(waitLock := None);
    var s4 := Put(s3, 0, s3.procs[0].(pc := Asleep, locked := false, state := SLEEPING));
    Extend(run, steps, ScanEnd(0), s1);
    run, steps := run + [s1], steps + [ScanEnd(0)];
    Extend(run, steps, Kill(0), s2);
    run, steps := run + [s2], steps + [Kill(0)];
    Extend(run, steps, SleepLock(0), s3);
    run, steps := run + [s3], steps + [SleepLock(0)];
    Extend(run, steps, SleepDone(0), s4);
    run, steps := run + [s4], steps + [SleepDone(0)];
  }

  // ---------- no deadlock ----------

  ghost predicate CanMove(s: State)
    requires Shape(s)
  {
    exists step: Step, s': State :: !step.Kill? && Next(s, step, s')
  }

  /** The process between giving up wait_lock and being asleep can go on. */
  lemma FallingMoves(s: State, p: nat)
    requires Inv(s) && p < NPROC && s.procs[p].locked
    ensures CanMove(s)
  {
    assert Local(s.procs, s.init, p);
    var x := s.procs[p];
    assert Next(s, SleepDone(p), Put(s, p, x.(pc := Asleep, locked := false, state := SLEEPING)));
  }

  lemma ExiterMoves(s: State, p: nat)
    requires Inv(s) && p < NPROC && s.procs[p].state == READY && !Counting(s.procs[p].pc) && HasWaitLock(s.procs[p].pc)
    ensures CanMove(s)
  {
    var x := s.procs[p];
    if x.pc.Reparent? {
      var i := x.pc.i;
      assert Next(s, ReparentStep(p), if i >= NPROC then Go(s, p, WakeParent(0))
                                      else if s.procs[i].parent == Some(p)
                                      then Go(Put(s, i, s.procs[i].(parent := Some(s.init))), p, WakeInit(i, 0))
                                      else Go(s, p, Reparent(i + 1)));
    } else if x.pc == Dying {
      assert Next(s, Die(p), Put(s, p, x.(state := ZOMBIE, pc := Dead)).(waitLock := None));
    } else {
      WakerMoves(s, p);
    }
  }

  lemma WakerMoves(s: State, p: nat)
    requires Inv(s) && p < NPROC && s.procs[p].state == READY && (s.procs[p].pc.WakeInit? || s.procs[p].pc.WakeParent?)
    ensures CanMove(s)
  {
    var x := s.procs[p];
    var j := x.pc.j;
    if j < NPROC && j != p && s.procs[j].locked {
      FallingMoves(s, j);
    } else if x.pc.WakeInit? {
      assert Next(s, WakeInitStep(p),
                  if j >= NPROC then Go(s, p, Reparent(x.pc.i + 1))
                  else if j == p then Go(s, p, WakeInit(x.pc.i, j + 1))
                  else Go(Put(s, j, if j == s.init then Woken(s.procs[j]) else s.procs[j]), p,
                          WakeInit(x.pc.i, j + 1)));
    } else {
      assert Next(s, WakeParentStep(p),
                  if j >= NPROC then Go(s, p, Dying)
                  else if j == p then Go(s, p, WakeParent(j + 1))
                  else Go(Put(s, j, if x.parent == Some(j) then Woken(s.procs[j]) else s.procs[j]), p,
                          WakeParent(j + 1)));
    }
  }

  lemma ScannerMoves(s: State, p: nat)
    requires Inv(s) && p < NPROC && s.procs[p].state == READY && Counting(s.procs[p].pc)
    ensures CanMove(s)
  {
    var x := s.procs[p];
    var i := if x.pc.Scan? then x.pc.i else NPROC;
    if x.pc == Sleepy {
      assert Next(s, SleepLock(p), Put(s, p, x.(pc := Falling, locked := true)).(waitLock := None));
    } else if i >= NPROC {
      assert Next(s, ScanEnd(p), if !x.pc.kids || x.killed then Go(s, p, Idle).(waitLock := None)
                                 else Go(s, p, Sleepy));
    } else if s.procs[i].parent != Some(p) {
      assert Next(s, ScanStep(p, true), Go(s, p, Scan(i + 1, x.pc.kids)));
    } else if s.procs[i].locked {
      FallingMoves(s, i);
    } else if s.procs[i].state != ZOMBIE {
      assert Next(s, ScanStep(p, true), Go(s, p, Scan(i + 1, true)));
    } else {
      assert Next(s, ScanStep(p, true), Go(Put(s, i, Freed()), p, Idle).(waitLock := None));
    }
  }

  /** Whoever holds wait_lock can go on, or the process it waits for can. */
  lemma HolderMoves(s: State)
    requires Inv(s) && s.waitLock.Some?
    ensures CanMove(s)
  {
    var p := s.waitLock.value;
    assert HasWaitLock(s.procs[p].pc) && Local(s.procs, s.init, p);
    if Counting(s.procs[p].pc) { ScannerMoves(s, p); } else { ExiterMoves(s, p); }
  }

  lemma FreeMoves(s: State, p: nat)
    requires Inv(s) && s.waitLock == None && p < NPROC && s.procs[p].state == READY
    requires Forking(s.procs[p].pc) || s.procs[p].pc == Relock || s.procs[p].pc == Asleep
    ensures CanMove(s)
  {
    var x := s.procs[p];
    assert ForkOk(s.procs, p);
    if x.pc.Fork1? {
      var c := x.pc.child;
      assert Next(s, SetParent(p), Go(Put(s, c, s.procs[c].(parent := Some(p))), p, Fork2(c)));
    } else if x.pc.Fork2? {
      var c := x.pc.child;
      assert Next(s, Start(p), Go(Put(s, c, s.procs[c].(state := READY, maker := None)), p, Idle));
    } else if x.pc == Asleep {
      assert Next(s, Resume(p), Go(s, p, Relock));
    } else {
      assert Next(s, Reacquire(p), Go(s, p, Scan(0, false)).(waitLock := Some(p)));
    }
  }

  /** As long as a process is inside fork, exit or wait and not asleep, some process can take a step. */
  lemma NoDeadlock(run: seq<State>, steps: seq<Step>, k: nat, p: nat)
    requires IsRun(run, steps) && k < |run| && p < NPROC && run[k].procs[p].state == READY && run[k].procs[p].pc != Idle
    ensures CanMove(run[k])
  {
    RunInv(run, steps, k);
    var s := run[k];
    assert Local(s.procs, s.init, p);
    if s.waitLock.Some? {
      HolderMoves(s);
    } else if s.procs[p].locked {
      FallingMoves(s, p);
    } else {
      assert !HasWaitLock(s.procs[p].pc);
      FreeMoves(s, p);
    }
  }
}
