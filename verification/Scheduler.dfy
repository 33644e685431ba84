/** The MLFQ scheduler as a step machine over CPUs: kernel/proc.c and kernel/trap.c.

    A step is what one CPU does under one lock, or between two lock operations; any CPU may take
    the next step.  A lock held over several steps (p->lock across swtch) is a field of the
    process.  A timer interrupt is a step, swtch a change of the CPU's place in the code. */
module Scheduler {
  import opened Options

  const NPROC: nat := 64
  const NCPU: nat := 8
  const NMLFQ: nat := 3
  const BOOST_INTERVAL: nat := 100

  function TimeSlice(priority: int): (t: nat)
    ensures 1 <= t <= 4
  {
    if priority == 0 then 1 else if priority == 1 then 2 else 4
  }

  datatype PState = UNUSED | USED | SLEEPING | RUNNABLE | RUNNING | ZOMBIE

  /** lock: the CPU that holds p->lock.  cpu: the CPU on which the process's kernel thread is
      executing.  saved: its registers are in p->context.  window: between mlfq_check_timer's
      charge and the yield that follows.  preset: setprocpriority was applied to it. */
  datatype Proc = Proc(state: PState, lock: Option<nat>, cpu: Option<nat>, saved: bool,
                       priority: nat, ticksUsed: nat, total: nat, demoted: nat, boosted: nat, window: bool,
                       preset: bool)

  /** Where a CPU is: in scheduler() at the top of the loop, in priority_boost before proc[i], in
      the search before proc[i] at a priority, holding the lock of the process it found; or in a
      process's thread just after swtch, running it, in the timer interrupt, about to call swtch;
      or back in scheduler() after swtch. */
  datatype Pc =
    | Top
    | Boost(i: nat)
    | Scan(priority: nat, i: nat)
    | Selected(i: nat)
    | Resumed(i: nat)
    | Run(i: nat)
    | Charged(i: nat)
    | Ticked(i: nat)
    | Leaving(i: nat)
    | Back(i: nat)

  /** proc: c->proc.  owes: the CPU has added to mlfq_ticks since it last looked at it. */
  datatype Cpu = Cpu(pc: Pc, proc: Option<nat>, owes: bool)

  datatype State = State(cpus: seq<Cpu>, procs: seq<Proc>, mlfqTicks: nat, charged: nat, boosts: nat)

  datatype Step =
    | Check(c: nat) | BoostOne(c: nat) | Look(c: nat) | Dispatch(c: nat) | Release(c: nat)
    | Charge(c: nat) | GlobalTick(c: nat) | Yield(c: nat) | Sleep(c: nat) | Exit(c: nat)
    | Swtch(c: nat) | Finish(c: nat)
    | Wakeup(i: nat) | SetPriority(i: nat, priority: nat) | Alloc(i: nat) | Launch(i: nat) | Free(i: nat)

  // ---------- what a step does to a process ----------

  function Fresh(state: PState): Proc {
    Proc(state, None, None, true, 0, 0, 0, 0, 0, false, false)
  }

  function Boosted(p: Proc): Proc {
    if p.state == UNUSED then p
    else p.(priority := 0, ticksUsed := 0, boosted := if p.priority > 0 then p.boosted + 1 else p.boosted)
  }

  /** mlfq_check_timer's charge. */
  function ChargedProc(p: Proc): Proc {
    p.(ticksUsed := p.ticksUsed + 1, total := p.total + 1, window := true)
  }

  /** yield() up to the call of sched. */
  function Yielded(p: Proc, c: nat): Proc {
    var q := if p.ticksUsed < TimeSlice(p.priority) then p
             else if p.priority < NMLFQ - 1
               then p.(priority := p.priority + 1, demoted := p.demoted + 1, ticksUsed := 0)
             else p.(ticksUsed := 0);
    q.(state := RUNNABLE, lock := Some(c), window := false)
  }

  function NextScan(priority: nat, i: nat): Pc {
    if i + 1 < NPROC then Scan(priority, i + 1) else if priority + 1 < NMLFQ then Scan(priority + 1, 0) else Top
  }

  // ---------- steps ----------

  predicate Shape(s: State) {
    |s.cpus| == NCPU && |s.procs| == NPROC
  }

  function At(s: State, c: nat, pc: Pc): State
    requires c < |s.cpus|
  {
    s.(cpus := s.cpus[c := s.cpus[c].(pc := pc)])
  }

  function Put(s: State, i: nat, p: Proc): State
    requires i < |s.procs|
  {
    s.(procs := s.procs[i := p])
  }

  /** CPU c is in process i's thread. */
  predicate InThread(pc: Pc) {
    pc.Resumed? || pc.Run? || pc.Charged? || pc.Ticked? || pc.Leaving?
  }

  predicate Unlocked(s: State, i: nat)
    requires i < |s.procs|
  {
    s.procs[i].lock == None
  }

  predicate NextCpu(s: State, step: Step, s': State)
    requires Shape(s)
  {
    match step
    case Check(c) =>
      && c < NCPU && s.cpus[c].pc == Top
      && var s1 := s.(cpus := s.cpus[c := s.cpus[c].(owes := false)]);
         if s.mlfqTicks >= BOOST_INTERVAL then s' == At(s1.(mlfqTicks := 0, boosts := s.boosts + 1), c, Boost(0))
         else s' == At(s1, c, Scan(0, 0))
    case BoostOne(c) =>
      && c < NCPU && s.cpus[c].pc.Boost? && s.cpus[c].pc.i < NPROC
      && var i := s.cpus[c].pc.i;
         && Unlocked(s, i)
         && s' == At(Put(s, i, Boosted(s.procs[i])), c, if i + 1 < NPROC then Boost(i + 1) else Scan(0, 0))
    case Look(c) =>
      && c < NCPU && s.cpus[c].pc.Scan? && s.cpus[c].pc.i < NPROC
      && var pc := s.cpus[c].pc;
         var p := s.procs[pc.i];
         && Unlocked(s, pc.i)
         && s' == if p.state == RUNNABLE && p.priority == pc.priority
                  then At(Put(s, pc.i, p.(lock := Some(c))), c, Selected(pc.i))
                  else At(s, c, NextScan(pc.priority, pc.i))
    case Dispatch(c) =>
      && c < NCPU && s.cpus[c].pc.Selected? && s.cpus[c].pc.i < NPROC
      && var i := s.cpus[c].pc.i;
         s' == Put(s, i, s.procs[i].(state := RUNNING, saved := false, cpu := Some(c)))
               .(cpus := s.cpus[c := s.cpus[c].(pc := Resumed(i), proc := Some(i))])
    case Release(c) =>
      && c < NCPU && s.cpus[c].pc.Resumed? && s.cpus[c].pc.i < NPROC
      && var i := s.cpus[c].pc.i;
         s' == At(Put(s, i, s.procs[i].(lock := None)), c, Run(i))
    case Charge(c) =>
      && c < NCPU && s.cpus[c].pc.Run? && s.cpus[c].pc.i < NPROC
      && var i := s.cpus[c].pc.i;
         && Unlocked(s, i)
         && s' == At(Put(s, i, ChargedProc(s.procs[i])), c, Charged(i))
    case GlobalTick(c) =>
      && c < NCPU && s.cpus[c].pc.Charged?
      && s' == s.(mlfqTicks := s.mlfqTicks + 1, charged := s.charged + 1,
                  cpus := s.cpus[c := s.cpus[c].(pc := Ticked(s.cpus[c].pc.i), owes := true)])
    case Yield(c) =>
      && c < NCPU && (s.cpus[c].pc.Run? || s.cpus[c].pc.Ticked?) && s.cpus[c].pc.i < NPROC
      && var i := s.cpus[c].pc.i;
         && Unlocked(s, i)
         && s' == At(Put(s, i, Yielded(s.procs[i], c)), c, Leaving(i))
    case Sleep(c) =>
      && c < NCPU && s.cpus[c].pc.Run? && s.cpus[c].pc.i < NPROC
      && var i := s.cpus[c].pc.i;
         && Unlocked(s, i)
         && s' == At(Put(s, i, s.procs[i].(state := SLEEPING, ticksUsed := 0, lock := Some(c))), c, Leaving(i))
    case Exit(c) =>
      && c < NCPU && s.cpus[c].pc.Run? && s.cpus[c].pc.i < NPROC
      && var i := s.cpus[c].pc.i;
         && Unlocked(s, i)
         && s' == At(Put(s, i, s.procs[i].(state := ZOMBIE, lock := Some(c))), c, Leaving(i))
    case Swtch(c) =>
      && c < NCPU && s.cpus[c].pc.Leaving? && s.cpus[c].pc.i < NPROC
      && var i := s.cpus[c].pc.i;
         s' == At(Put(s, i, s.procs[i].(saved := true)), c, Back(i))
    case Finish(c) =>
      && c < NCPU && s.cpus[c].pc.Back? && s.cpus[c].pc.i < NPROC
      && var i := s.cpus[c].pc.i;
         s' == Put(s, i, s.procs[i].(lock := None, cpu := None))
               .(cpus := s.cpus[c := s.cpus[c].(pc := Top, proc := None)])
    case Wakeup(_) => false
    case SetPriority(_, _) => false
    case Alloc(_) => false
    case Launch(_) => false
    case Free(_) => false
  }

  /** What a running thread may do to another process under that process's lock. */
  predicate NextOther(s: State, step: Step, s': State)
    requires Shape(s)
  {
    && (step.Wakeup? || step.SetPriority? || step.Alloc? || step.Launch? || step.Free?)
    && step.i < NPROC && Unlocked(s, step.i)
    && var p := s.procs[step.i];
       match step
       case Wakeup(i) => p.state == SLEEPING && s' == Put(s, i, p.(state := RUNNABLE))
       case SetPriority(i, priority) =>
         priority <= 2 && p.state != UNUSED && s' == Put(s, i, p.(priority := priority, ticksUsed := 0, preset := true))
       case Alloc(i) => p.state == UNUSED && s' == Put(s, i, Fresh(USED))
       case Launch(i) => p.state == USED && s' == Put(s, i, p.(state := RUNNABLE))
       case Free(i) => (p.state == ZOMBIE || p.state == USED) && s' == Put(s, i, Fresh(UNUSED))
  }

  predicate Next(s: State, step: Step, s': State)
    requires Shape(s)
  {
    NextCpu(s, step, s') || NextOther(s, step, s')
  }

  ghost predicate Init(s: State) {
    && Shape(s) && s.mlfqTicks == 0 && s.charged == 0 && s.boosts == 0
    && (forall c: nat :: c < NCPU ==> s.cpus[c] == Cpu(Top, None, false))
    && (forall i: nat :: i < NPROC ==> s.procs[i] == Fresh(UNUSED) || s.procs[i] == Fresh(RUNNABLE))
  }

  // ---------- the invariant ----------

  ghost predicate CpuOk(cpus: seq<Cpu>, procs: seq<Proc>, c: nat)
    requires c < |cpus|
  {
    var pc := cpus[c].pc;
    if pc.Top? || pc.Boost? || pc.Scan? then
      cpus[c].proc == None && (pc.Top? || !cpus[c].owes)
    else
      && pc.i < |procs|
      && var p := procs[pc.i];
         if pc.Selected? then cpus[c].proc == None && p.lock == Some(c) && p.state == RUNNABLE && p.cpu == None
           && !cpus[c].owes
         else
           && cpus[c].proc == Some(pc.i) && p.cpu == Some(c)
           && (cpus[c].owes ==> pc.Ticked? || pc.Leaving? || pc.Back?)
           && (p.saved <==> pc.Back?) && (p.window <==> pc.Charged? || pc.Ticked?)
           && (p.state == RUNNING <==> pc.Resumed? || pc.Run? || pc.Charged? || pc.Ticked?)
           && (p.lock == Some(c) <==> pc.Resumed? || pc.Leaving? || pc.Back?)
           && (pc.Leaving? || pc.Back? ==> p.state == RUNNABLE || p.state == SLEEPING || p.state == ZOMBIE)
  }

  /** The lock and the cpu field name a CPU that is in the matching place. */
  ghost predicate ProcOk(cpus: seq<Cpu>, procs: seq<Proc>, i: nat)
    requires i < |procs|
  {
    var p := procs[i];
    && (p.lock.Some? ==> p.lock.value < |cpus| && HoldsLock(cpus[p.lock.value].pc, i))
    && (p.cpu.Some? ==> p.cpu.value < |cpus| && cpus[p.cpu.value].proc == Some(i))
    && (p.cpu == None ==> p.saved && p.state != RUNNING && !p.window)
  }

  predicate HoldsLock(pc: Pc, i: nat) {
    (pc.Selected? || pc.Resumed? || pc.Leaving? || pc.Back?) && pc.i == i
  }

  /** priority, ticks_used and the statistics. */
  predicate LevelOk(p: Proc) {
    && p.priority < NMLFQ
    && (if p.window then p.ticksUsed <= TimeSlice(p.priority) else p.ticksUsed < TimeSlice(p.priority))
    && (!p.preset ==> p.boosted + (if p.priority > 0 then 1 else 0) <= p.demoted <= 2 * p.boosted + p.priority)
  }

  function Owing(cpus: seq<Cpu>): nat {
    if cpus == [] then 0 else (if cpus[0].owes then 1 else 0) + Owing(cpus[1..])
  }

  predicate TimingOk(cpus: seq<Cpu>, mlfqTicks: nat, charged: nat, boosts: nat) {
    && mlfqTicks <= BOOST_INTERVAL - 1 + Owing(cpus)
    && BOOST_INTERVAL * boosts <= charged - mlfqTicks <= (BOOST_INTERVAL - 1 + NCPU) * boosts
  }

  ghost predicate CpusOk(cpus: seq<Cpu>, procs: seq<Proc>) {
    forall c: nat :: c < |cpus| ==> CpuOk(cpus, procs, c)
  }

  ghost predicate ProcsOk(cpus: seq<Cpu>, procs: seq<Proc>) {
    forall i: nat :: i < |procs| ==> ProcOk(cpus, procs, i) && LevelOk(procs[i])
  }

  ghost predicate Inv(s: State) {
    && Shape(s) && CpusOk(s.cpus, s.procs) && ProcsOk(s.cpus, s.procs)
    && TimingOk(s.cpus, s.mlfqTicks, s.charged, s.boosts)
  }

  // ---------- frames ----------

  predicate Engaged(pc: Pc) {
    !(pc.Top? || pc.Boost? || pc.Scan?)
  }

  predicate About(pc: Pc, i: nat) {
    Engaged(pc) && pc.i == i
  }

  /** Everything the CPUs rely on. */
  predicate SameCore(p: Proc, q: Proc) {
    q.state == p.state && q.lock == p.lock && q.cpu == p.cpu && q.saved == p.saved && q.window == p.window
  }

  /** No CPU but c is anywhere near process i. */
  ghost predicate OnlyAt(cpus: seq<Cpu>, i: nat, c: nat) {
    forall d: nat :: d < |cpus| && d != c ==> !About(cpus[d].pc, i)
  }

  /** A step of CPU c on process i. */
  lemma FrameBoth(cpus: seq<Cpu>, procs: seq<Proc>, c: nat, x: Cpu, i: nat, p: Proc)
    requires CpusOk(cpus, procs) && ProcsOk(cpus, procs) && c < |cpus| && i < |procs|
    requires OnlyAt(cpus, i, c) || SameCore(procs[i], p)
    requires CpuOk(cpus[c := x], procs[i := p], c) && ProcOk(cpus[c := x], procs[i := p], i) && LevelOk(p)
    requires Engaged(cpus[c].pc) ==> cpus[c].pc.i == i
    ensures CpusOk(cpus[c := x], procs[i := p]) && ProcsOk(cpus[c := x], procs[i := p])
  {
    var cpus', procs' := cpus[c := x], procs[i := p];
    forall d: nat | d < |cpus| ensures CpuOk(cpus', procs', d) {
      assert CpuOk(cpus, procs, d);
    }
    forall j: nat | j < |procs| ensures ProcOk(cpus', procs', j) && LevelOk(procs'[j]) {
      assert ProcOk(cpus, procs, j) && LevelOk(procs[j]) && CpuOk(cpus, procs, c);
    }
  }

  /** A step of CPU c alone. */
  lemma FrameCpu(cpus: seq<Cpu>, procs: seq<Proc>, c: nat, x: Cpu)
    requires CpusOk(cpus, procs) && ProcsOk(cpus, procs) && c < |cpus| && CpuOk(cpus[c := x], procs, c)
    requires x.proc == cpus[c].proc && (Engaged(cpus[c].pc) ==> !HoldsLock(cpus[c].pc, cpus[c].pc.i))
    ensures CpusOk(cpus[c := x], procs) && ProcsOk(cpus[c := x], procs)
  {
    var cpus' := cpus[c := x];
    forall d: nat | d < |cpus| ensures CpuOk(cpus', procs, d) {
      assert CpuOk(cpus, procs, d);
    }
    forall j: nat | j < |procs| ensures ProcOk(cpus', procs, j) {
      assert ProcOk(cpus, procs, j);
    }
  }

  /** A step on process i by a thread that runs elsewhere. */
  lemma FrameProc(cpus: seq<Cpu>, procs: seq<Proc>, i: nat, p: Proc)
    requires CpusOk(cpus, procs) && ProcsOk(cpus, procs) && i < |procs|
    requires OnlyAt(cpus, i, |cpus|) || SameCore(procs[i], p)
    requires ProcOk(cpus, procs[i := p], i) && LevelOk(p)
    ensures CpusOk(cpus, procs[i := p]) && ProcsOk(cpus, procs[i := p])
  {
    var procs' := procs[i := p];
    forall d: nat | d < |cpus| ensures CpuOk(cpus, procs', d) {
      assert CpuOk(cpus, procs, d);
    }
    forall j: nat | j < |procs| ensures ProcOk(cpus, procs', j) && LevelOk(procs'[j]) {
      assert ProcOk(cpus, procs, j) && LevelOk(procs[j]);
    }
  }

  /** The process of an engaged CPU is nobody else's. */
  lemma Mine(cpus: seq<Cpu>, procs: seq<Proc>, c: nat)
    requires CpusOk(cpus, procs) && c < |cpus| && Engaged(cpus[c].pc)
    ensures OnlyAt(cpus, cpus[c].pc.i, c)
  {
    assert CpuOk(cpus, procs, c);
    forall d: nat | d < |cpus| && d != c ensures !About(cpus[d].pc, cpus[c].pc.i) {
      assert CpuOk(cpus, procs, d);
    }
  }

  /** A process that is not RUNNING and whose lock is free is on no CPU, and its context is saved. */
  lemma Nobodys(cpus: seq<Cpu>, procs: seq<Proc>, i: nat)
    requires CpusOk(cpus, procs) && ProcsOk(cpus, procs) && i < |procs| && procs[i].lock == None
             && procs[i].state != RUNNING
    ensures OnlyAt(cpus, i, |cpus|) && procs[i].cpu == None && procs[i].saved && !procs[i].window
  {
    assert ProcOk(cpus, procs, i);
    forall d: nat | d < |cpus| ensures !About(cpus[d].pc, i) && cpus[d].proc != Some(i) {
      assert CpuOk(cpus, procs, d);
    }
  }

  // ---------- counting CPUs ----------

  lemma {:induction false} OwingChange(cpus: seq<Cpu>, c: nat, x: Cpu)
    requires c < |cpus|
    ensures Owing(cpus[c := x]) == Owing(cpus) + (if x.owes then 1 else 0) - (if cpus[c].owes then 1 else 0)
  {
    if c == 0 {
      assert cpus[c := x][1..] == cpus[1..];
    } else {
      OwingChange(cpus[1..], c - 1, x);
      assert cpus[c := x][1..] == cpus[1..][c - 1 := x];
    }
  }

  lemma {:induction false} OwingBound(cpus: seq<Cpu>)
    ensures Owing(cpus) <= |cpus|
  {
    if cpus != [] { OwingBound(cpus[1..]); }
  }

  // ---------- each step keeps the invariant ----------

  lemma CheckInv(s: State, c: nat, s': State)
    requires Inv(s) && NextCpu(s, Check(c), s')
    ensures Inv(s')
  {
    var x := s'.cpus[c];
    assert CpuOk(s.cpus, s.procs, c);
    assert s'.cpus == s.cpus[c := x];
    FrameCpu(s.cpus, s.procs, c, x);
    OwingChange(s.cpus, c, x);
    OwingBound(s.cpus);
  }

  lemma BoostOneInv(s: State, c: nat, s': State)
    requires Inv(s) && NextCpu(s, BoostOne(c), s')
    ensures Inv(s')
  {
    var i, x := s.cpus[c].pc.i, s'.cpus[c];
    assert CpuOk(s.cpus, s.procs, c) && ProcOk(s.cpus, s.procs, i) && LevelOk(s.procs[i]);
    Engage(s, c, x, i, Boosted(s.procs[i]), s');
  }

  /** The step of CPU c on process i, other than through mlfq_ticks. */
  lemma Engage(s: State, c: nat, x: Cpu, i: nat, p: Proc, s': State)
    requires Inv(s) && c < NCPU && i < NPROC && s' == s.(cpus := s.cpus[c := x], procs := s.procs[i := p])
    requires x.owes == s.cpus[c].owes && (Engaged(s.cpus[c].pc) ==> s.cpus[c].pc.i == i)
    requires OnlyAt(s.cpus, i, c) || SameCore(s.procs[i], p)
    requires CpuOk(s'.cpus, s'.procs, c) && ProcOk(s'.cpus, s'.procs, i) && LevelOk(p)
    ensures Inv(s')
  {
    FrameBoth(s.cpus, s.procs, c, x, i, p);
    OwingChange(s.cpus, c, x);
  }

  lemma LookInv(s: State, c: nat, s': State)
    requires Inv(s) && NextCpu(s, Look(c), s')
    ensures Inv(s')
  {
    var i, x := s.cpus[c].pc.i, s'.cpus[c];
    assert CpuOk(s.cpus, s.procs, c) && ProcOk(s.cpus, s.procs, i) && LevelOk(s.procs[i]);
    var p := s.procs[i];
    if p.state == RUNNABLE && p.priority == s.cpus[c].pc.priority {
      Nobodys(s.cpus, s.procs, i);
      Engage(s, c, x, i, p.(lock := Some(c)), s');
    } else {
      assert s'.cpus == s.cpus[c := x];
      FrameCpu(s.cpus, s.procs, c, x);
      OwingChange(s.cpus, c, x);
    }
  }

  predicate ByThread(step: Step) {
    step.Dispatch? || step.Release? || step.Charge? || step.Yield? || step.Sleep? || step.Exit? || step.Swtch?
      || step.Finish?
  }

  lemma ThreadInv(s: State, step: Step, s': State)
    requires Inv(s) && ByThread(step) && NextCpu(s, step, s')
    ensures Inv(s')
  {
    var c := step.c;
    var i, x := s.cpus[c].pc.i, s'.cpus[c];
    assert CpuOk(s.cpus, s.procs, c) && ProcOk(s.cpus, s.procs, i) && LevelOk(s.procs[i]);
    Mine(s.cpus, s.procs, c);
    Engage(s, c, x, i, s'.procs[i], s');
  }

  lemma GlobalTickInv(s: State, c: nat, s': State)
    requires Inv(s) && NextCpu(s, GlobalTick(c), s')
    ensures Inv(s')
  {
    var x := s'.cpus[c];
    assert CpuOk(s.cpus, s.procs, c);
    FrameCpu(s.cpus, s.procs, c, x);
    OwingChange(s.cpus, c, x);
  }

  lemma OtherInv(s: State, step: Step, s': State)
    requires Inv(s) && NextOther(s, step, s')
    ensures Inv(s')
  {
    var i := step.i;
    assert ProcOk(s.cpus, s.procs, i) && LevelOk(s.procs[i]);
    if !step.SetPriority? { Nobodys(s.cpus, s.procs, i); }
    FrameProc(s.cpus, s.procs, i, s'.procs[i]);
  }

  lemma NextInv(s: State, step: Step, s': State)
    requires Inv(s) && Next(s, step, s')
    ensures Inv(s')
  {
    if NextOther(s, step, s') {
      OtherInv(s, step, s');
    } else if ByThread(step) {
      ThreadInv(s, step, s');
    } else if step.Check? {
      CheckInv(s, step.c, s');
    } else if step.BoostOne? {
      BoostOneInv(s, step.c, s');
    } else if step.Look? {
      LookInv(s, step.c, s');
    } else {
      GlobalTickInv(s, step.c, s');
    }
  }

  // ---------- whole runs ----------

  ghost predicate IsRun(run: seq<State>, steps: seq<Step>) {
    && |run| == |steps| + 1 && Init(run[0]) && (forall k: nat :: k < |run| ==> Shape(run[k]))
    && forall k: nat :: k < |steps| ==> Next(run[k], steps[k], run[k + 1])
  }

  lemma {:induction false} RunInv(run: seq<State>, steps: seq<Step>, k: nat)
    requires IsRun(run, steps) && k < |run|
    ensures Inv(run[k])
  {
    if k == 0 {
      NoOneOwes(run[0].cpus);
    } else {
      RunInv(run, steps, k - 1);
      NextInv(run[k - 1], steps[k - 1], run[k]);
    }
  }

  lemma {:induction false} NoOneOwes(cpus: seq<Cpu>)
    requires forall c: nat :: c < |cpus| ==> !cpus[c].owes
    ensures Owing(cpus) == 0
  {
    if cpus != [] { NoOneOwes(cpus[1..]); }
  }

  /** No process is current on two CPUs. */
  lemma NoTwoCpus(run: seq<State>, steps: seq<Step>, k: nat, c: nat, d: nat, i: nat)
    requires IsRun(run, steps) && k < |run| && c < NCPU && d < NCPU && c != d && run[k].cpus[c].proc == Some(i)
    ensures run[k].cpus[d].proc != Some(i)
  {
    RunInv(run, steps, k);
    assert CpuOk(run[k].cpus, run[k].procs, c) && CpuOk(run[k].cpus, run[k].procs, d);
  }

  /** A RUNNING process is c->proc of exactly one CPU, which is in that process's thread. */
  lemma RunningIsCurrent(run: seq<State>, steps: seq<Step>, k: nat, i: nat)
    requires IsRun(run, steps) && k < |run| && i < NPROC && run[k].procs[i].state == RUNNING
    ensures exists c: nat :: c < NCPU && run[k].cpus[c].proc == Some(i) && InThread(run[k].cpus[c].pc)
    ensures forall c: nat, d: nat ::
            c < NCPU && d < NCPU && run[k].cpus[c].proc == Some(i) && run[k].cpus[d].proc == Some(i) ==> c == d
  {
    RunInv(run, steps, k);
    var s := run[k];
    assert ProcOk(s.cpus, s.procs, i);
    var c := s.procs[i].cpu.value;
    assert CpuOk(s.cpus, s.procs, c);
    forall d: nat | d < NCPU && s.cpus[d].proc == Some(i) ensures d == c {
      assert CpuOk(s.cpus, s.procs, d);
    }
  }

  /** p->lock is held across swtch: a process that is not RUNNING and whose lock is free, in
      particular one that is RUNNABLE or ZOMBIE, has left its CPU with its context saved. */
  lemma SavedWhenUnlocked(run: seq<State>, steps: seq<Step>, k: nat, i: nat)
    requires IsRun(run, steps) && k < |run| && i < NPROC && run[k].procs[i].lock == None
             && run[k].procs[i].state != RUNNING
    ensures run[k].procs[i].saved
    ensures forall c: nat :: c < NCPU ==> run[k].cpus[c].proc != Some(i) && !About(run[k].cpus[c].pc, i)
  {
    RunInv(run, steps, k);
    var s := run[k];
    Nobodys(s.cpus, s.procs, i);
    forall c: nat | c < NCPU ensures s.cpus[c].proc != Some(i) && !About(s.cpus[c].pc, i) {
      assert CpuOk(s.cpus, s.procs, c);
    }
  }

  /** swtch only ever resumes a saved context, of a process that was RUNNABLE. */
  lemma ResumesSaved(run: seq<State>, steps: seq<Step>, k: nat, c: nat, i: nat)
    requires IsRun(run, steps) && k < |steps| && steps[k] == Dispatch(c) && c < NCPU && i < NPROC
             && run[k].cpus[c].pc == Selected(i)
    ensures run[k].procs[i].saved && run[k].procs[i].state == RUNNABLE
    ensures run[k + 1].cpus[c].proc == Some(i) && run[k + 1].procs[i].state == RUNNING
  {
    RunInv(run, steps, k);
    var s := run[k];
    assert CpuOk(s.cpus, s.procs, c) && ProcOk(s.cpus, s.procs, i);
    assert Next(s, steps[k], run[k + 1]);
  }

  /** mlfq_ticks overshoots by less than a tick per CPU; boosts keep pace with the ticks charged. */
  lemma BoostTiming(run: seq<State>, steps: seq<Step>, k: nat)
    requires IsRun(run, steps) && k < |run|
    ensures run[k].mlfqTicks <= BOOST_INTERVAL - 1 + NCPU
    ensures BOOST_INTERVAL * run[k].boosts <= run[k].charged <= (BOOST_INTERVAL - 1 + NCPU) * (run[k].boosts + 1)
  {
    RunInv(run, steps, k);
    OwingBound(run[k].cpus);
  }

  /** The priority is a queue; the ticks used fit the slice, also when boosts and setprocpriority
      come in between; and the statistics of a process left to the scheduler agree. */
  lemma Levels(run: seq<State>, steps: seq<Step>, k: nat, i: nat)
    requires IsRun(run, steps) && k < |run| && i < NPROC
    ensures var p := run[k].procs[i];
            && p.priority < NMLFQ && p.ticksUsed <= TimeSlice(p.priority)
            && (p.ticksUsed == TimeSlice(p.priority) ==>
                  exists c: nat :: c < NCPU && (run[k].cpus[c].pc == Charged(i) || run[k].cpus[c].pc == Ticked(i)))
            && (!p.preset ==> p.boosted + (if p.priority > 0 then 1 else 0) <= p.demoted <= 2 * p.boosted + p.priority)
  {
    RunInv(run, steps, k);
    var s := run[k];
    assert ProcOk(s.cpus, s.procs, i) && LevelOk(s.procs[i]);
    if s.procs[i].window {
      var c := s.procs[i].cpu.value;
      assert CpuOk(s.cpus, s.procs, c);
    }
  }

  // ---------- the loops over proc[] ----------

  /** i comes before j: higher queue, or same queue and earlier in the table. */
  predicate Before(procs: seq<Proc>, i: nat, j: nat)
    requires i < |procs| && j < |procs|
  {
    procs[i].priority < procs[j].priority || (procs[i].priority == procs[j].priority && i <= j)
  }

  /** scheduler's search on a table that does not change: the first RUNNABLE process of the highest
      queue that has one.  Ties go to table order, not round robin. */
  method Search(procs: seq<Proc>) returns (found: Option<nat>)
    ensures found == None ==> forall j: nat :: j < |procs| && procs[j].state == RUNNABLE ==> procs[j].priority >= NMLFQ
    ensures found.Some? ==> found.value < |procs| && procs[found.value].state == RUNNABLE
    ensures found.Some? ==> forall j: nat :: j < |procs| && procs[j].state == RUNNABLE ==> Before(procs, found.value, j)
  {
    found := None;
    var priority := 0;
    while priority < NMLFQ && found == None
      invariant priority <= NMLFQ
      invariant found == None ==> forall j: nat :: j < |procs| && procs[j].state == RUNNABLE ==>
                  procs[j].priority >= priority
      invariant found.Some? ==> found.value < |procs| && procs[found.value].state == RUNNABLE
      invariant found.Some? ==> forall j: nat :: j < |procs| && procs[j].state == RUNNABLE ==>
                  Before(procs, found.value, j)
    {
      var i := 0;
      while i < |procs|
        invariant i <= |procs|
        invariant forall j: nat :: j < |procs| && procs[j].state == RUNNABLE ==> procs[j].priority >= priority
        invariant forall j: nat :: j < i && procs[j].state == RUNNABLE ==> procs[j].priority > priority
      {
        if procs[i].state == RUNNABLE && procs[i].priority == priority {
          found := Some(i);
          break;
        }
        i := i + 1;
      }
      priority := priority + 1;
    }
  }

  /** priority_boost's loop, in place. */
  method PriorityBoost(procs: array<Proc>)
    modifies procs
    ensures forall i: nat :: i < procs.Length ==> procs[i] == Boosted(old(procs[i]))
    ensures forall i: nat :: i < procs.Length && procs[i].state != UNUSED ==>
              procs[i].priority == 0 && procs[i].ticksUsed == 0
  {
    var i := 0;
    while i < procs.Length
      invariant i <= procs.Length
      invariant forall j: nat :: j < i ==> procs[j] == Boosted(old(procs[j]))
      invariant forall j: nat :: i <= j < procs.Length ==> procs[j] == old(procs[j])
    {
      if procs[i].state != UNUSED {
        if procs[i].priority > 0 {
          procs[i] := procs[i].(boosted := procs[i].boosted + 1);
        }
        procs[i] := procs[i].(priority := 0, ticksUsed := 0);
      }
      i := i + 1;
    }
  }

  function InUse(procs: seq<Proc>): nat {
    if procs == [] then 0 else InUse(procs[..|procs| - 1]) + (if procs[|procs| - 1].state != UNUSED then 1 else 0)
  }

  /** How many processes are in that state. */
  function InState(procs: seq<Proc>, st: PState): nat {
    if procs == [] then 0 else InState(procs[..|procs| - 1], st) + (if procs[|procs| - 1].state == st then 1 else 0)
  }

  function InQueue(procs: seq<Proc>, k: nat): nat {
    if procs == [] then 0
    else InQueue(procs[..|procs| - 1], k)
         + (if procs[|procs| - 1].state != UNUSED && procs[|procs| - 1].priority == k then 1 else 0)
  }

  /** What getpstat reads, each entry at a moment of its own, meets QueueCounts' premise. */
  lemma SampledLevels(run: seq<State>, steps: seq<Step>, procs: seq<Proc>, at: seq<nat>)
    requires IsRun(run, steps) && |procs| == |at| == NPROC
    requires forall i: nat :: i < NPROC ==> at[i] < |run| && procs[i] == run[at[i]].procs[i]
    ensures forall i: nat :: i < |procs| ==> LevelOk(procs[i])
  {
    forall i: nat | i < NPROC ensures LevelOk(procs[i]) {
      RunInv(run, steps, at[i]);
      assert LevelOk(run[at[i]].procs[i]);
    }
  }

  /** getpstat's counters.  Each entry of the table is as it was under its own lock. */
  method QueueCounts(procs: seq<Proc>)
    returns (total: nat, queue: array<nat>, running: nat, sleeping: nat, runnable: nat)
    requires forall i: nat :: i < |procs| ==> LevelOk(procs[i])
    ensures fresh(queue) && queue.Length == NMLFQ
    ensures total == InUse(procs)
    ensures queue[0] + queue[1] + queue[2] == total
    ensures forall k: nat :: k < NMLFQ ==> queue[k] == InQueue(procs, k)
    ensures running == InState(procs, RUNNING) && sleeping == InState(procs, SLEEPING)
    ensures runnable == InState(procs, RUNNABLE) && running + sleeping + runnable <= total
  {
    total, running, sleeping, runnable := 0, 0, 0, 0;
    queue := new nat[NMLFQ](_ => 0);
    var i := 0;
    while i < |procs|
      invariant i <= |procs|
      invariant total == InUse(procs[..i])
      invariant queue[0] + queue[1] + queue[2] == total
      invariant forall k: nat :: k < NMLFQ ==> queue[k] == InQueue(procs[..i], k)
      invariant running == InState(procs[..i], RUNNING) && sleeping == InState(procs[..i], SLEEPING)
      invariant runnable == InState(procs[..i], RUNNABLE) && running + sleeping + runnable <= total
    {
      assert procs[..i + 1][..i] == procs[..i];
      var p := procs[i];
      assert LevelOk(p);
      if p.state != UNUSED {
        total := total + 1;
        if p.priority < NMLFQ {
          queue[p.priority] := queue[p.priority] + 1;
        }
        if p.state == RUNNING {
          running := running + 1;
        } else if p.state == SLEEPING {
          sleeping := sleeping + 1;
        } else if p.state == RUNNABLE {
          runnable := runnable + 1;
        }
      }
      i := i + 1;
    }
    assert procs[..i] == procs;
  }
}
