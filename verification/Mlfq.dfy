/** The rules of the multi-level feedback queue, apart from how the kernel keeps them: what a process
    has been through decides its queue and how much of its slice it has used.  The step machine of
    module Scheduler follows the rules in every run, on any number of CPUs. */
module Mlfq {
  import opened Options
  import opened Scheduler

  // ---------- the rules ----------

  /** What can happen to a process: it is created (or its table entry is cleared); a timer tick finds it
      running; it gives up the CPU, at a tick or by itself; it waits for something; all processes are
      boosted; its priority is set. */
  datatype Event = Born | Tick | GivesUp | Blocks | Lifted | Set(priority: nat)

  datatype Standing = Standing(queue: nat, used: nat, ticks: nat)

  /** One tick in the highest queue, twice as many in each next. */
  function Slice(queue: nat): nat {
    if queue == 0 then 1 else 2 * Slice(queue - 1)
  }

  /** A new process starts at the top; one that has used up its slice when it gives up the CPU goes one
      queue down, in the lowest it starts a new slice; waiting renews the slice; a boost takes everyone
      to the top. */
  function After(st: Standing, e: Event): Standing {
    match e
    case Born => Standing(0, 0, 0)
    case Tick => Standing(st.queue, st.used + 1, st.ticks + 1)
    case GivesUp =>
      if st.used < Slice(st.queue) then st
      else Standing(if st.queue + 1 < NMLFQ then st.queue + 1 else st.queue, 0, st.ticks)
    case Blocks => Standing(st.queue, 0, st.ticks)
    case Lifted => Standing(0, 0, st.ticks)
    case Set(q) => Standing(q, 0, st.ticks)
  }

  function Replay(es: seq<Event>): Standing {
    if es == [] then Standing(0, 0, 0) else After(Replay(es[..|es| - 1]), es[|es| - 1])
  }

  // ---------- what happens in a run ----------

  /** The process a step is about. */
  function Subject(s: State, step: Step): nat
    requires Shape(s)
  {
    if step.Wakeup? || step.SetPriority? || step.Alloc? || step.Launch? || step.Free? then step.i
    else if step.c < NCPU && !s.cpus[step.c].pc.Top? then s.cpus[step.c].pc.i
    else NPROC
  }

  /** What the step means to the process it is about, if anything. */
  function Means(s: State, step: Step): seq<Event>
    requires Shape(s)
  {
    match step
    case Alloc(_) => [Born]
    case Free(_) => [Born]
    case Charge(_) => [Tick]
    case Yield(_) => [GivesUp]
    case Sleep(_) => [Blocks]
    case BoostOne(_) => if Subject(s, step) < NPROC && s.procs[Subject(s, step)].state == UNUSED then [] else [Lifted]
    case SetPriority(_, q) => [Set(q)]
    case _ => []
  }

  /** What it means to process i. */
  function Happens(s: State, step: Step, i: nat): (es: seq<Event>)
    requires Shape(s)
    ensures |es| <= 1
  {
    if Subject(s, step) == i then Means(s, step) else []
  }

  /** All that has happened to process i. */
  ghost function History(run: seq<State>, steps: seq<Step>, k: nat, i: nat): seq<Event>
    requires k < |run| && k <= |steps| && forall j: nat :: j < |run| ==> Shape(run[j])
  {
    if k == 0 then []
    else
      assert Shape(run[k - 1]);
      History(run, steps, k - 1, i) + Happens(run[k - 1], steps[k - 1], i)
  }

  predicate Stands(p: Proc, st: Standing) {
    p.priority == st.queue && p.ticksUsed == st.used && p.total == st.ticks
  }

  lemma SliceIsTable(queue: nat)
    requires queue < NMLFQ
    ensures Slice(queue) == TimeSlice(queue)
  {
    assert Slice(0) == 1 && Slice(1) == 2 && Slice(2) == 4;
  }

  function AfterAll(st: Standing, es: seq<Event>): Standing {
    if es == [] then st else After(st, es[0])
  }

  /** A step changes the standing of the process it is about, as the rules say, and of no other. */
  lemma StepEffect(s: State, step: Step, s': State, i: nat, st: Standing)
    requires Shape(s) && Shape(s') && Next(s, step, s') && i < NPROC && Stands(s.procs[i], st)
    requires Slice(st.queue) == TimeSlice(st.queue)
    ensures Stands(s'.procs[i], AfterAll(st, Happens(s, step, i)))
  {
    if NextCpu(s, step, s') { CpuEffect(s, step, s', i, st); } else { OtherEffect(s, step, s', i, st); }
  }

  lemma CpuEffect(s: State, step: Step, s': State, i: nat, st: Standing)
    requires Shape(s) && Shape(s') && NextCpu(s, step, s') && i < NPROC && Stands(s.procs[i], st)
    requires Slice(st.queue) == TimeSlice(st.queue)
    ensures Stands(s'.procs[i], AfterAll(st, Happens(s, step, i)))
  {
    if Subject(s, step) != i {
      CpuLeavesOthers(s, step, s', i);
    } else if step.Yield? {
      YieldEffect(s, step.c, s', i, st);
    } else {
      SubjectEffect(s, step, s', i, st);
    }
  }

  lemma CpuLeavesOthers(s: State, step: Step, s': State, i: nat)
    requires Shape(s) && Shape(s') && NextCpu(s, step, s') && i < NPROC && Subject(s, step) != i
    ensures s'.procs[i] == s.procs[i]
  {
  }

  lemma YieldEffect(s: State, c: nat, s': State, i: nat, st: Standing)
    requires Shape(s) && Shape(s') && NextCpu(s, Yield(c), s') && i < NPROC && Stands(s.procs[i], st)
    requires Slice(st.queue) == TimeSlice(st.queue) && Subject(s, Yield(c)) == i
    ensures Stands(s'.procs[i], AfterAll(st, Happens(s, Yield(c), i)))
  {
  }

  lemma SubjectEffect(s: State, step: Step, s': State, i: nat, st: Standing)
    requires Shape(s) && Shape(s') && NextCpu(s, step, s') && i < NPROC && Stands(s.procs[i], st)
    requires !step.Yield? && Subject(s, step) == i
    ensures Stands(s'.procs[i], AfterAll(st, Happens(s, step, i)))
  {
  }

  lemma OtherEffect(s: State, step: Step, s': State, i: nat, st: Standing)
    requires Shape(s) && Shape(s') && NextOther(s, step, s') && i < NPROC && Stands(s.procs[i], st)
    ensures Stands(s'.procs[i], AfterAll(st, Happens(s, step, i)))
  {
  }

  lemma ReplayMore(es: seq<Event>, more: seq<Event>)
    requires |more| <= 1
    ensures Replay(es + more) == AfterAll(Replay(es), more)
  {
    if more == [] { assert es + more == es; } else { assert (es + more)[..|es|] == es; }
  }

  lemma FollowsStep(run: seq<State>, steps: seq<Step>, k: nat, i: nat, st: Standing)
    requires IsRun(run, steps) && k < |steps| && i < NPROC && Shape(run[k]) && Stands(run[k].procs[i], st)
    ensures Stands(run[k + 1].procs[i], AfterAll(st, Happens(run[k], steps[k], i)))
  {
    RunInv(run, steps, k);
    assert LevelOk(run[k].procs[i]);
    SliceIsTable(st.queue);
    StepEffect(run[k], steps[k], run[k + 1], i, st);
  }

  ghost predicate Shaped(run: seq<State>) {
    forall j: nat :: j < |run| ==> Shape(run[j])
  }

  /** Step j treats process i by the rules, whatever its standing. */
  ghost predicate ByRules(run: seq<State>, steps: seq<Step>, j: nat, i: nat)
    requires |run| == |steps| + 1 && Shaped(run) && j < |steps| && i < NPROC
  {
    forall st: Standing :: Stands(run[j].procs[i], st) ==>
      Stands(run[j + 1].procs[i], AfterAll(st, Happens(run[j], steps[j], i)))
  }

  lemma {:induction false} AllByRules(run: seq<State>, steps: seq<Step>, k: nat, i: nat)
    requires |run| == |steps| + 1 && Shaped(run) && k < |run| && i < NPROC && Stands(run[0].procs[i], Standing(0, 0, 0))
    requires forall j: nat :: j < |steps| ==> ByRules(run, steps, j, i)
    ensures Stands(run[k].procs[i], Replay(History(run, steps, k, i)))
  {
    if k > 0 {
      AllByRules(run, steps, k - 1, i);
      var es := History(run, steps, k - 1, i);
      assert ByRules(run, steps, k - 1, i);
      ReplayMore(es, Happens(run[k - 1], steps[k - 1], i));
    }
  }

  /** In every run, for every process: its queue, the ticks it has used of its slice and its ticks in all
      are what the rules make of its history. */
  lemma FollowsRules(run: seq<State>, steps: seq<Step>, k: nat, i: nat)
    requires IsRun(run, steps) && k < |run| && i < NPROC
    ensures Stands(run[k].procs[i], Replay(History(run, steps, k, i)))
  {
    forall j: nat | j < |steps| ensures ByRules(run, steps, j, i) {
      forall st: Standing | Stands(run[j].procs[i], st)
        ensures Stands(run[j + 1].procs[i], AfterAll(st, Happens(run[j], steps[j], i)))
      {
        FollowsStep(run, steps, j, i, st);
      }
    }
    AllByRules(run, steps, k, i);
  }

  // ---------- the life of a process ----------

  /** The state a step leads to, for the steps that change it. */
  function Leads(step: Step): seq<PState> {
    match step
    case Alloc(_) => [USED]
    case Launch(_) => [RUNNABLE]
    case Dispatch(_) => [RUNNING]
    case Yield(_) => [RUNNABLE]
    case Sleep(_) => [SLEEPING]
    case Wakeup(_) => [RUNNABLE]
    case Exit(_) => [ZOMBIE]
    case Free(_) => [UNUSED]
    case _ => []
  }

  /** And the states it may find. */
  predicate Finds(step: Step, state: PState) {
    match step
    case Alloc(_) => state == UNUSED
    case Launch(_) => state == USED
    case Dispatch(_) => state == RUNNABLE
    case Yield(_) => state == RUNNING
    case Sleep(_) => state == RUNNING
    case Wakeup(_) => state == SLEEPING
    case Exit(_) => state == RUNNING
    case Free(_) => state == ZOMBIE || state == USED
    case _ => true
  }

  /** A process changes its state only in its own steps, along these lines: UNUSED, USED, RUNNABLE, then
      RUNNING and RUNNABLE or SLEEPING in turn, ZOMBIE, UNUSED. */
  lemma LifeCycle(run: seq<State>, steps: seq<Step>, k: nat, i: nat)
    requires IsRun(run, steps) && k < |steps| && i < NPROC
    ensures if Subject(run[k], steps[k]) == i && Leads(steps[k]) != []
            then Finds(steps[k], run[k].procs[i].state) && run[k + 1].procs[i].state == Leads(steps[k])[0]
            else run[k + 1].procs[i].state == run[k].procs[i].state
  {
    RunInv(run, steps, k);
    var s, step := run[k], steps[k];
    assert Next(s, step, run[k + 1]);
    if !(step.Wakeup? || step.SetPriority? || step.Alloc? || step.Launch? || step.Free?) {
      assert CpuOk(s.cpus, s.procs, step.c);
    }
  }

  /** setpriority takes every level there is and no other, whatever the process is doing. */
  lemma EveryLevelCanBeSet(s: State, i: nat, priority: nat)
    requires Shape(s) && i < NPROC && Unlocked(s, i) && s.procs[i].state != UNUSED
    ensures CanSet(s, i, priority) <==> priority < NMLFQ
  {
    var p := s.procs[i];
    assert priority < NMLFQ ==>
        Next(s, SetPriority(i, priority), Put(s, i, p.(priority := priority, ticksUsed := 0, preset := true)));
  }

  ghost predicate CanSet(s: State, i: nat, priority: nat)
    requires Shape(s)
  {
    exists s': State :: Next(s, SetPriority(i, priority), s')
  }

  // ---------- no CPU waits for ever ----------

  ghost predicate CpuMoves(s: State, c: nat)
    requires Shape(s)
  {
    exists step: Step, s': State :: CpuStep(s, c, step, s')
  }

  predicate CpuStep(s: State, c: nat, step: Step, s': State)
    requires Shape(s)
  {
    && !(step.Wakeup? || step.SetPriority? || step.Alloc? || step.Launch? || step.Free?) && step.c == c
    && Next(s, step, s')
  }

  /** A CPU that holds a process's lock can go on. */
  lemma LockHolderMoves(s: State, c: nat)
    requires Inv(s) && c < NCPU && s.cpus[c].pc != Top && HoldsLock(s.cpus[c].pc, s.cpus[c].pc.i)
    ensures CpuMoves(s, c)
  {
    assert CpuOk(s.cpus, s.procs, c);
    var i := s.cpus[c].pc.i;
    var p := s.procs[i];
    if s.cpus[c].pc.Selected? {
      assert CpuStep(s, c, Dispatch(c), Put(s, i, p.(state := RUNNING, saved := false, cpu := Some(c)))
                                        .(cpus := s.cpus[c := s.cpus[c].(pc := Resumed(i), proc := Some(i))]));
    } else if s.cpus[c].pc.Resumed? {
      assert CpuStep(s, c, Release(c), At(Put(s, i, p.(lock := None)), c, Run(i)));
    } else if s.cpus[c].pc.Leaving? {
      assert CpuStep(s, c, Swtch(c), At(Put(s, i, p.(saved := true)), c, Back(i)));
    } else {
      assert CpuStep(s, c, Finish(c), Put(s, i, p.(lock := None, cpu := None))
                                      .(cpus := s.cpus[c := s.cpus[c].(pc := Top, proc := None)]));
    }
  }

  lemma UnlockedMoves(s: State, c: nat)
    requires Inv(s) && c < NCPU && InRange(s.cpus[c].pc)
    requires s.cpus[c].pc.Top? || s.cpus[c].pc.Charged? || s.procs[s.cpus[c].pc.i].lock == None
    requires s.cpus[c].pc.Top? || !HoldsLock(s.cpus[c].pc, s.cpus[c].pc.i)
    ensures CpuMoves(s, c)
  {
    var x := s.cpus[c];
    match x.pc
    case Top =>
      var s1 := s.(cpus := s.cpus[c := x.(owes := false)]);
      assert CpuStep(s, c, Check(c), if s.mlfqTicks >= BOOST_INTERVAL
                                     then At(s1.(mlfqTicks := 0, boosts := s.boosts + 1), c, Pc.Boost(0))
                                     else At(s1, c, Scan(0, 0)));
    case Boost(i) =>
      assert CpuStep(s, c, BoostOne(c), At(Put(s, i, Boosted(s.procs[i])), c,
                                           if i + 1 < NPROC then Pc.Boost(i + 1) else Scan(0, 0)));
    case Scan(q, i) =>
      var p := s.procs[i];
      assert CpuStep(s, c, Look(c), if p.state == RUNNABLE && p.priority == q
                                    then At(Put(s, i, p.(lock := Some(c))), c, Selected(i))
                                    else At(s, c, NextScan(q, i)));
    case Run(i) => assert CpuStep(s, c, Yield(c), At(Put(s, i, Yielded(s.procs[i], c)), c, Leaving(i)));
    case Charged(i) =>
      assert CpuStep(s, c, GlobalTick(c), s.(mlfqTicks := s.mlfqTicks + 1, charged := s.charged + 1,
                                             cpus := s.cpus[c := x.(pc := Ticked(i), owes := true)]));
    case Ticked(i) => assert CpuStep(s, c, Yield(c), At(Put(s, i, Yielded(s.procs[i], c)), c, Leaving(i)));
  }

  /** The table entry a CPU is at exists. */
  predicate InRange(pc: Pc) {
    pc.Top? || pc.i < NPROC
  }

  lemma {:induction false} AlwaysInRange(run: seq<State>, steps: seq<Step>, k: nat, c: nat)
    requires IsRun(run, steps) && k < |run| && c < NCPU
    ensures InRange(run[k].cpus[c].pc)
  {
    if k > 0 {
      AlwaysInRange(run, steps, k - 1, c);
      RangeStep(run[k - 1], steps[k - 1], run[k], c);
    }
  }

  lemma RangeStep(s: State, step: Step, s': State, c: nat)
    requires Shape(s) && Shape(s') && Next(s, step, s') && c < NCPU && InRange(s.cpus[c].pc)
    ensures InRange(s'.cpus[c].pc)
  {
  }

  /** In every reachable state every CPU can take a step, or waits for the lock of a process that is held
      by another CPU that can. */
  lemma NoDeadlock(run: seq<State>, steps: seq<Step>, k: nat, c: nat)
    requires IsRun(run, steps) && k < |run| && c < NCPU
    ensures CpuMoves(run[k], c) || exists d: nat :: d < NCPU && d != c && CpuMoves(run[k], d)
  {
    RunInv(run, steps, k);
    AlwaysInRange(run, steps, k, c);
    var s := run[k];
    var pc := s.cpus[c].pc;
    if pc != Top && HoldsLock(pc, pc.i) {
      LockHolderMoves(s, c);
    } else if pc.Top? || pc.Charged? || s.procs[pc.i].lock == None {
      UnlockedMoves(s, c);
    } else {
      assert ProcOk(s.cpus, s.procs, pc.i);
      LockHolderMoves(s, s.procs[pc.i].lock.value);
    }
  }
}
