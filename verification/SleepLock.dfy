/** Sleep locks (kernel/sleeplock.c) as clients of sleep and wakeup (kernel/proc.c).

    One sleep lock, any number of processes, every interleaving.  A step is the part of the code
    between two acquisitions or releases of a spinlock; a critical section taken and left within
    one step needs its spinlock free. */
module SleepLock {
  datatype Pc =
    | Outside
    | WantLk                 // acquiresleep: about to acquire(&lk->lk)
    | Test                   // holds lk->lk, at `while (lk->locked)`
    | WantProc               // in sleep(): holds lk->lk, about to acquire(&p->lock)
    | BothHeld               // holds lk->lk and p->lock, about to release(lk)
    | MarkSleep              // holds p->lock, about to set p->chan and SLEEPING
    | Switching              // SLEEPING, in sched(), p->lock held until the scheduler frees it
    | Off                    // not on a CPU
    | Resumed                // back from sched(), p->lock held
    | Holding                // acquiresleep has returned
    | WantRelease            // releasesleep: about to acquire(&lk->lk)
    | Waking(i: nat)         // holds lk->lk, locked is 0, wakeup(lk) is at proc[i]

  datatype RunState = Awake | Runnable | Sleeping

  datatype Proc = Proc(pc: Pc, state: RunState, chan: bool, locked: bool)   // chan: p->chan == lk

  /** lk->lk's holder, lk->locked and lk->pid (processes are named by their slot). */
  datatype State = State(lk: int, locked: bool, owner: int, procs: seq<Proc>)

  const NOBODY := -1

  predicate Init(s: State) {
    && s.lk == NOBODY && !s.locked && s.owner == NOBODY
    && forall p :: 0 <= p < |s.procs| ==> s.procs[p] == Proc(Outside, Awake, false, false)
  }

  function At(s: State, p: nat, pc: Pc): State
    requires p < |s.procs|
  {
    s.(procs := s.procs[p := s.procs[p].(pc := pc)])
  }

  function With(s: State, p: nat, proc: Proc): State
    requires p < |s.procs|
  {
    s.(procs := s.procs[p := proc])
  }

  datatype Step =
    | StartAcquire(p: nat) | TakeLk(p: nat) | TestLocked(p: nat) | TakeProc(p: nat) | DropLk(p: nat) | GoToSleep(p: nat)
    | SwitchOut(p: nat) | Dispatch(p: nat) | FinishSleep(p: nat)
    | StartRelease(p: nat) | Unlock(p: nat) | WakeOne(p: nat) | FinishRelease(p: nat)
    | Kill(p: nat)

  predicate Next(s: State, step: Step, s': State) {
    && step.p < |s.procs|
    && var p := step.p;
       var me := s.procs[p];
       match step
       // acquiresleep
       case StartAcquire(_) => me.pc.Outside? && s' == At(s, p, WantLk)
       case TakeLk(_) => me.pc.WantLk? && s.lk == NOBODY && s' == At(s, p, Test).(lk := p)
       case TestLocked(_) =>
         && me.pc.Test?
         && s' == (if s.locked then At(s, p, WantProc)
            else At(s, p, Holding).(locked := true, owner := p, lk := NOBODY))
       // sleep
       case TakeProc(_) => me.pc.WantProc? && !me.locked && s' == With(s, p, me.(pc := BothHeld, locked := true))
       case DropLk(_) => me.pc.BothHeld? && s' == At(s, p, MarkSleep).(lk := NOBODY)
       case GoToSleep(_) => me.pc.MarkSleep? && s' == With(s, p, me.(pc := Switching, state := Sleeping, chan := true))
       // the scheduler, after swtch and before it
       case SwitchOut(_) => me.pc.Switching? && s' == With(s, p, me.(pc := Off, locked := false))
       case Dispatch(_) =>
         me.pc.Off? && me.state.Runnable? && !me.locked
           && s' == With(s, p, me.(pc := Resumed, state := Awake, locked := true))
       case FinishSleep(_) => me.pc.Resumed? && s' == With(s, p, me.(pc := WantLk, chan := false, locked := false))
       // releasesleep
       case StartRelease(_) => me.pc.Holding? && s' == At(s, p, WantRelease)
       case Unlock(_) =>
         me.pc.WantRelease? && s.lk == NOBODY && s' == At(s, p, Waking(0)).(lk := p, locked := false, owner := NOBODY)
       case WakeOne(_) =>
         && me.pc.Waking? && me.pc.i < |s.procs|
         && var i := me.pc.i;
            && (i != p ==> !s.procs[i].locked)
            && var t := (if i != p && s.procs[i].state.Sleeping? && s.procs[i].chan
                         then With(s, i, s.procs[i].(state := Runnable)) else s);
               s' == At(t, p, Waking(i + 1))
       case FinishRelease(_) => me.pc.Waking? && me.pc.i == |s.procs| && s' == At(s, p, Outside).(lk := NOBODY)
       // kill() by anyone
       case Kill(_) => me.state.Sleeping? && !me.locked && s' == With(s, p, me.(state := Runnable))
  }

  // ---------- the invariant ----------

  predicate HoldsLk(pc: Pc) {
    pc.Test? || pc.WantProc? || pc.BothHeld? || pc.Waking?
  }

  predicate HoldsProc(pc: Pc) {
    pc.BothHeld? || pc.MarkSleep? || pc.Switching? || pc.Resumed?
  }

  predicate Owns(pc: Pc) {
    pc.Holding? || pc.WantRelease?
  }

  /** Past the test of lk->locked and on the way to SLEEPING, or SLEEPING. */
  predicate Committed(q: Proc) {
    q.pc.WantProc? || q.pc.BothHeld? || q.pc.MarkSleep? || q.pc.Switching? || (q.pc.Off? && q.state.Sleeping?)
  }

  predicate LocalOk(s: State, p: nat)
    requires p < |s.procs|
  {
    var q := s.procs[p];
    && (s.lk == p <==> HoldsLk(q.pc))
    && (q.locked <==> HoldsProc(q.pc))
    && (s.locked && s.owner == p <==> Owns(q.pc))
    && (q.state.Sleeping? ==> q.chan && (q.pc.Switching? || q.pc.Off?))
    && (q.pc.Switching? ==> q.state.Sleeping?) && (q.pc.Off? ==> !q.state.Awake?)
    && (q.pc.Waking? ==> !s.locked && q.pc.i <= |s.procs|)
  }

  /** Someone will still wake p: the lock is taken, or a releaser's scan has not passed p. */
  ghost predicate WillWake(s: State, p: nat)
    requires p < |s.procs|
  {
    s.locked || (0 <= s.lk < |s.procs| && s.procs[s.lk].pc.Waking? && s.procs[s.lk].pc.i <= p)
  }

  ghost predicate Inv(s: State) {
    && NOBODY <= s.lk < |s.procs| && NOBODY <= s.owner < |s.procs|
    && (s.locked <==> s.owner != NOBODY)
    && (forall p :: 0 <= p < |s.procs| ==> LocalOk(s, p))
    && (forall p :: 0 <= p < |s.procs| && Committed(s.procs[p]) ==> WillWake(s, p))
  }

  lemma NextLocal(s: State, step: Step, s': State, p: nat)
    requires Inv(s) && Next(s, step, s') && p < |s.procs|
    ensures LocalOk(s', p)
  {
    if p == step.p { OwnLocal(s, step, s'); } else { OtherLocal(s, step, s', p); }
  }

  lemma OwnLocal(s: State, step: Step, s': State)
    requires Inv(s) && Next(s, step, s')
    ensures LocalOk(s', step.p)
  {
    assert LocalOk(s, step.p);
  }

  lemma OtherLocal(s: State, step: Step, s': State, p: nat)
    requires Inv(s) && Next(s, step, s') && p < |s.procs| && p != step.p
    ensures LocalOk(s', p)
  {
    assert LocalOk(s, step.p) && LocalOk(s, p);
  }

  lemma NextWake(s: State, step: Step, s': State, p: nat)
    requires Inv(s) && Next(s, step, s') && p < |s.procs| && Committed(s'.procs[p])
    ensures WillWake(s', p)
  {
    assert LocalOk(s, step.p) && LocalOk(s, p);
    assert Committed(s.procs[p]) ==> WillWake(s, p);
    assert s.lk != NOBODY ==> LocalOk(s, s.lk);
  }

  lemma NextInv(s: State, step: Step, s': State)
    requires Inv(s) && Next(s, step, s')
    ensures Inv(s')
  {
    assert LocalOk(s, step.p);
    forall p | 0 <= p < |s'.procs| ensures LocalOk(s', p) { NextLocal(s, step, s', p); }
    forall p | 0 <= p < |s'.procs| && Committed(s'.procs[p]) ensures WillWake(s', p) { NextWake(s, step, s', p); }
  }

  // ---------- whole runs ----------

  ghost predicate IsRun(run: seq<State>, steps: seq<Step>) {
    && |run| == |steps| + 1 && Init(run[0])
    && forall k :: 0 <= k < |steps| ==> Next(run[k], steps[k], run[k+1])
  }

  lemma {:induction false} RunInv(run: seq<State>, steps: seq<Step>, k: nat)
    requires IsRun(run, steps) && k < |run|
    ensures Inv(run[k])
  {
    if k > 0 {
      RunInv(run, steps, k - 1);
      NextInv(run[k-1], steps[k-1], run[k]);
    } else {
      forall p | 0 <= p < |run[0].procs| ensures LocalOk(run[0], p) {}
    }
  }

  /** At most one process is between acquiresleep and releasesleep. */
  lemma MutualExclusion(run: seq<State>, steps: seq<Step>, k: nat, p: nat, q: nat)
    requires IsRun(run, steps) && k < |run| && p < |run[k].procs| && q < |run[k].procs|
    requires Owns(run[k].procs[p].pc) && Owns(run[k].procs[q].pc)
    ensures p == q
  {
    RunInv(run, steps, k);
    assert LocalOk(run[k], p) && LocalOk(run[k], q);
  }

  /** holdingsleep answers true for exactly the process that holds the lock. */
  lemma HoldingSleepExact(run: seq<State>, steps: seq<Step>, k: nat, p: nat)
    requires IsRun(run, steps) && k < |run| && p < |run[k].procs|
    ensures (run[k].locked && run[k].owner == p) <==> Owns(run[k].procs[p].pc)
  {
    RunInv(run, steps, k);
    assert LocalOk(run[k], p);
  }

  /** No lost wakeup: with the lock free and no releaser inside releasesleep, nobody sleeps on
      the lock and nobody is committed to sleeping on it. */
  lemma NoLostWakeup(run: seq<State>, steps: seq<Step>, k: nat, p: nat)
    requires IsRun(run, steps) && k < |run| && p < |run[k].procs|
    requires !run[k].locked && forall r :: 0 <= r < |run[k].procs| ==> !run[k].procs[r].pc.Waking?
    ensures !Committed(run[k].procs[p]) && !run[k].procs[p].state.Sleeping?
  {
    RunInv(run, steps, k);
    assert LocalOk(run[k], p);
  }

  /** Even while a releaser is scanning, nobody it has passed sleeps on. */
  lemma ScanLeavesNoSleeper(run: seq<State>, steps: seq<Step>, k: nat, r: nat, p: nat)
    requires IsRun(run, steps) && k < |run| && p < |run[k].procs| && r < |run[k].procs|
    requires run[k].procs[r].pc.Waking? && p < run[k].procs[r].pc.i
    ensures !Committed(run[k].procs[p])
  {
    RunInv(run, steps, k);
    assert LocalOk(run[k], r) && LocalOk(run[k], p);
  }

  // ---------- what acquiresleep and releasesleep do ----------

  /** In acquiresleep. */
  predicate Acquiring(pc: Pc) {
    !pc.Outside? && !Owns(pc) && !pc.Waking?
  }

  /** acquiresleep returns only with the lock, which was free; until then it goes on trying. */
  lemma AcquireReturnsHolding(run: seq<State>, steps: seq<Step>, k: nat, p: nat)
    requires IsRun(run, steps) && k < |steps| && p < |run[k].procs| && Acquiring(run[k].procs[p].pc)
    ensures |run[k + 1].procs| == |run[k].procs|
    ensures !Acquiring(run[k + 1].procs[p].pc) ==>
              run[k + 1].procs[p].pc.Holding? && run[k + 1].locked && run[k + 1].owner == p && !run[k].locked
  {
    RunInv(run, steps, k);
    assert Next(run[k], steps[k], run[k + 1]);
    assert LocalOk(run[k], p) && LocalOk(run[k], steps[k].p);
  }

  /** A process that finds the lock free takes it, and one that finds it taken goes to sleep. */
  lemma TestDecides(run: seq<State>, steps: seq<Step>, k: nat, p: nat)
    requires IsRun(run, steps) && k < |steps| && p < |run[k].procs| && run[k].procs[p].pc.Test?
    ensures |run[k + 1].procs| == |run[k].procs|
    ensures !run[k + 1].procs[p].pc.Test? ==>
              if run[k].locked then Committed(run[k + 1].procs[p]) else run[k + 1].procs[p].pc.Holding?
  {
    RunInv(run, steps, k);
    assert Next(run[k], steps[k], run[k + 1]);
    assert LocalOk(run[k], p) && LocalOk(run[k], steps[k].p);
  }

  /** The lock stays with its owner until that process releases it. */
  lemma HeldUntilReleased(run: seq<State>, steps: seq<Step>, k: nat)
    requires IsRun(run, steps) && k < |steps| && run[k].locked
    ensures || (run[k + 1].owner == run[k].owner && run[k + 1].locked)
            || (run[k].owner >= 0 && steps[k] == Unlock(run[k].owner))
  {
    RunInv(run, steps, k);
    assert Next(run[k], steps[k], run[k + 1]);
    assert LocalOk(run[k], steps[k].p);
  }

  ghost predicate CanMove(s: State) {
    exists step: Step, s': State :: Next(s, step, s')
  }

  /** A process that holds its own p->lock can always go on. */
  lemma ProcHolderMoves(s: State, p: nat)
    requires Inv(s) && p < |s.procs| && HoldsProc(s.procs[p].pc)
    ensures CanMove(s)
  {
    var me := s.procs[p];
    assert LocalOk(s, p);
    if me.pc.BothHeld? {
      assert Next(s, DropLk(p), At(s, p, MarkSleep).(lk := NOBODY));
    } else if me.pc.MarkSleep? {
      assert Next(s, GoToSleep(p), With(s, p, me.(pc := Switching, state := Sleeping, chan := true)));
    } else if me.pc.Switching? {
      assert Next(s, SwitchOut(p), With(s, p, me.(pc := Off, locked := false)));
    } else {
      assert Next(s, FinishSleep(p), With(s, p, me.(pc := WantLk, chan := false, locked := false)));
    }
  }

  /** So can the holder of lk->lk, or else the process whose p->lock it waits for. */
  lemma LkHolderMoves(s: State)
    requires Inv(s) && s.lk != NOBODY
    ensures CanMove(s)
  {
    var p := s.lk;
    assert LocalOk(s, p);
    var me := s.procs[p];
    if HoldsProc(me.pc) {
      ProcHolderMoves(s, p);
    } else if me.pc.Test? {
      assert Next(s, TestLocked(p), if s.locked then At(s, p, WantProc)
                                    else At(s, p, Holding).(locked := true, owner := p, lk := NOBODY));
    } else if me.pc.WantProc? {
      assert Next(s, TakeProc(p), With(s, p, me.(pc := BothHeld, locked := true)));
    } else {
      WakerMoves(s, p);
    }
  }

  lemma WakerMoves(s: State, p: nat)
    requires Inv(s) && p < |s.procs| && s.procs[p].pc.Waking?
    ensures CanMove(s)
  {
    var i := s.procs[p].pc.i;
    assert LocalOk(s, p);
    if i == |s.procs| {
      assert Next(s, FinishRelease(p), At(s, p, Outside).(lk := NOBODY));
    } else {
      assert LocalOk(s, i);
      if i != p && s.procs[i].locked {
        ProcHolderMoves(s, i);
      } else {
        var t := if i != p && s.procs[i].state.Sleeping? && s.procs[i].chan
                 then With(s, i, s.procs[i].(state := Runnable)) else s;
        assert Next(s, WakeOne(p), At(t, p, Waking(i + 1)));
      }
    }
  }

  /** As long as anyone holds the lock or wants it, some process can take a step: there is no deadlock,
      and nobody waits for a lock that no one will release. */
  lemma NoDeadlock(run: seq<State>, steps: seq<Step>, k: nat, p: nat)
    requires IsRun(run, steps) && k < |run| && p < |run[k].procs| && !run[k].procs[p].pc.Outside?
    ensures CanMove(run[k])
  {
    RunInv(run, steps, k);
    var s := run[k];
    var me := s.procs[p];
    assert LocalOk(s, p);
    if s.lk != NOBODY {
      LkHolderMoves(s);
    } else if HoldsProc(me.pc) {
      ProcHolderMoves(s, p);
    } else if me.pc.WantLk? {
      assert Next(s, TakeLk(p), At(s, p, Test).(lk := p));
    } else if me.pc.Off? && me.state.Runnable? {
      assert Next(s, Dispatch(p), With(s, p, me.(pc := Resumed, state := Awake, locked := true)));
    } else if me.pc.Off? {
      assert Committed(me) && WillWake(s, p);
      assert LocalOk(s, s.owner);
      OwnerMoves(s, s.owner);
    } else {
      OwnerMoves(s, p);
    }
  }

  lemma OwnerMoves(s: State, p: int)
    requires Inv(s) && s.lk == NOBODY && 0 <= p < |s.procs| && Owns(s.procs[p].pc)
    ensures CanMove(s)
  {
    assert LocalOk(s, p);
    if s.procs[p].pc.Holding? {
      assert Next(s, StartRelease(p), At(s, p, WantRelease));
    } else {
      assert Next(s, Unlock(p), At(s, p, Waking(0)).(lk := p, locked := false, owner := NOBODY));
    }
  }
}
