/** The step machine of module Scheduler when only one CPU takes steps.

    First: as long as the processes only run from one timer tick to the next, the machine goes
    through the rounds of module Fairness, so what is proved there holds of its runs.  Second: with
    processes that sleep before the tick, it does not; a RUNNABLE process can wait for ever. */
module OneCpu {
  import opened Options
  import opened Scheduler
  import Fairness

  // ---------- timer-driven runs are rounds ----------

  /** CPU 0 schedules; a thread does nothing but run until the timer interrupt makes it yield. */
  predicate Driven(s: State, step: Step)
    requires Shape(s)
  {
    || step == Check(0) || step == BoostOne(0) || step == Look(0) || step == Dispatch(0) || step == Release(0)
    || step == Charge(0) || step == GlobalTick(0) || (step == Yield(0) && s.cpus[0].pc.Ticked?)
    || step == Swtch(0) || step == Finish(0)
  }

  /** No lock is held, and some process is ready to run. */
  ghost predicate Ready(procs: seq<Proc>) {
    && |procs| == NPROC && (forall i: nat :: i < |procs| ==> ProcReady(procs[i]))
    && exists i: nat :: i < |procs| && procs[i].state == RUNNABLE
  }

  predicate ProcReady(p: Proc) {
    p.lock == None && p.priority < NMLFQ && (p.state == RUNNABLE ==> p.cpu == None && p.saved && !p.window)
  }

  ghost predicate IsDriven(run: seq<State>, steps: seq<Step>) {
    && |run| == |steps| + 1 && (forall k: nat :: k < |run| ==> Shape(run[k]))
    && run[0].cpus[0].pc == Top && Ready(run[0].procs)
    && forall k: nat :: k < |steps| ==> Driven(run[k], steps[k]) && Next(run[k], steps[k], run[k + 1])
  }

  /** What has happened to the process that was picked. */
  function Stage(p: Proc, pc: Pc): Proc {
    var selected, running := p.(lock := Some(0)), p.(state := RUNNING, cpu := Some(0), saved := false);
    match pc
    case Selected(_) => selected
    case Resumed(_) => running.(lock := Some(0))
    case Run(_) => running
    case Charged(_) => ChargedProc(running)
    case Ticked(_) => ChargedProc(running)
    case Leaving(_) => Yielded(ChargedProc(running), 0)
    case Back(_) => Yielded(ChargedProc(running), 0).(saved := true)
    case _ => p
  }

  /** The search has passed over everything before entry i of queue q. */
  ghost predicate Passed(procs: seq<Proc>, q: nat, i: nat) {
    forall j: nat :: j < |procs| && procs[j].state == RUNNABLE ==>
      procs[j].priority > q || (procs[j].priority == q && j >= i)
  }

  ghost predicate HalfBoosted(before: seq<Proc>, procs: seq<Proc>, i: nat) {
    |procs| == |before| && forall j: nat :: j < |procs| ==> procs[j] == if j < i then Boosted(before[j]) else before[j]
  }

  /** t was the table when CPU 0 was last at the top of its loop. */
  ghost predicate Since(t: Fairness.Table, s: State)
    requires Shape(s)
  {
    var pc, u := s.cpus[0].pc, Fairness.Checked(t);
    && Ready(t.procs)
    && if pc.Top? then s.procs == t.procs && s.mlfqTicks == t.ticks
       else if pc.Boost? then
         t.ticks >= BOOST_INTERVAL && s.mlfqTicks == 0 && pc.i < NPROC && HalfBoosted(t.procs, s.procs, pc.i)
       else if pc.Scan? then
         && s.procs == u.procs && s.mlfqTicks == u.ticks
         && pc.priority < NMLFQ && pc.i < NPROC && Passed(u.procs, pc.priority, pc.i)
       else
         && Fairness.Picks(u.procs, pc.i) && s.procs == u.procs[pc.i := Stage(u.procs[pc.i], pc)]
         && s.mlfqTicks == u.ticks + (if pc.Ticked? || pc.Leaving? || pc.Back? then 1 else 0)
  }

  lemma CheckedReady(t: Fairness.Table)
    requires Ready(t.procs)
    ensures Ready(Fairness.Checked(t).procs)
  {
    var i: nat :| i < |t.procs| && t.procs[i].state == RUNNABLE;
    assert Fairness.Checked(t).procs[i].state == RUNNABLE;
  }

  lemma BoostingSince(t: Fairness.Table, s: State, step: Step, s': State)
    requires Shape(s) && Shape(s') && Next(s, step, s') && Since(t, s) && (step == Check(0) || step == BoostOne(0))
    ensures Since(t, s')
  {
    if s'.cpus[0].pc.Scan? {
      assert s'.procs == Fairness.Checked(t).procs;
    }
  }

  /** The first entry of the right queue that can run is the one to pick. */
  lemma PassedPick(procs: seq<Proc>, q: nat, i: nat)
    requires Ready(procs) && Passed(procs, q, i) && q < NMLFQ && i < NPROC
    ensures procs[i].state == RUNNABLE && procs[i].priority == q ==> Fairness.Picks(procs, i)
    ensures !(procs[i].state == RUNNABLE && procs[i].priority == q) ==>
              var pc := NextScan(q, i);
              pc.Scan? && pc.priority < NMLFQ && pc.i < NPROC && Passed(procs, pc.priority, pc.i)
  {
    var j: nat :| j < |procs| && procs[j].state == RUNNABLE;
    assert ProcReady(procs[j]);
  }

  lemma LookSince(t: Fairness.Table, s: State, s': State)
    requires Shape(s) && Shape(s') && Next(s, Look(0), s') && Since(t, s)
    ensures Since(t, s')
  {
    CheckedReady(t);
    PassedPick(s.procs, s.cpus[0].pc.priority, s.cpus[0].pc.i);
  }

  lemma StartSince(t: Fairness.Table, s: State, step: Step, s': State)
    requires Shape(s) && Shape(s') && Next(s, step, s') && Since(t, s) && (step == Dispatch(0) || step == Release(0))
    ensures Since(t, s')
  {
    CheckedReady(t);
    var u, i := Fairness.Checked(t), s.cpus[0].pc.i;
    assert ProcReady(u.procs[i]);
    assert s'.procs == u.procs[i := Stage(u.procs[i], s'.cpus[0].pc)];
  }

  lemma ThreadSince(t: Fairness.Table, s: State, step: Step, s': State)
    requires Shape(s) && Shape(s') && Driven(s, step) && Next(s, step, s') && Since(t, s)
    requires step == Charge(0) || step == GlobalTick(0) || step == Yield(0) || step == Swtch(0)
    ensures Since(t, s')
  {
    CheckedReady(t);
    var u, i := Fairness.Checked(t), s.cpus[0].pc.i;
    assert ProcReady(u.procs[i]);
    assert s'.procs == u.procs[i := Stage(u.procs[i], s'.cpus[0].pc)];
  }

  /** When the scheduler is back at the top a round has passed. */
  lemma FinishRound(t: Fairness.Table, s: State, s': State)
    requires Shape(s) && Shape(s') && Next(s, Finish(0), s') && Since(t, s)
    ensures s.cpus[0].pc.Back? && Fairness.Round(t, s.cpus[0].pc.i, Fairness.Table(s'.procs, s'.mlfqTicks))
    ensures Since(Fairness.Table(s'.procs, s'.mlfqTicks), s')
  {
    CheckedReady(t);
    var u, i := Fairness.Checked(t), s.cpus[0].pc.i;
    assert ProcReady(u.procs[i]);
    assert s'.procs[i] == Fairness.Ran(u.procs[i]);
    assert s'.procs == u.procs[i := Fairness.Ran(u.procs[i])];
    forall j: nat | j < |s'.procs| ensures ProcReady(s'.procs[j]) { assert ProcReady(u.procs[j]); }
    assert s'.procs[i].state == RUNNABLE;
  }

  /** The processes whose turns on CPU 0 are over after n steps, in order. */
  ghost function Turns(run: seq<State>, steps: seq<Step>, n: nat): seq<nat>
    requires n <= |steps| < |run| && forall k: nat :: k < |run| ==> Shape(run[k])
  {
    if n == 0 then []
    else
      var s := run[n - 1];
      assert Shape(s);
      Turns(run, steps, n - 1) + (if steps[n - 1] == Finish(0) && s.cpus[0].pc.Back? then [s.cpus[0].pc.i] else [])
  }

  /** The turns of a timer-driven run are the picks of a run of rounds. */
  lemma {:induction false} DrivenIsRounds(run: seq<State>, steps: seq<Step>, n: nat)
    returns (tables: seq<Fairness.Table>)
    requires IsDriven(run, steps) && n <= |steps|
    ensures Fairness.IsRun(tables, Turns(run, steps, n)) && tables[0] == Fairness.Table(run[0].procs, run[0].mlfqTicks)
    ensures Since(tables[|tables| - 1], run[n])
  {
    if n == 0 {
      tables := [Fairness.Table(run[0].procs, run[0].mlfqTicks)];
    } else {
      tables := DrivenIsRounds(run, steps, n - 1);
      var s, step, s' := run[n - 1], steps[n - 1], run[n];
      var t := tables[|tables| - 1];
      assert Driven(s, step) && Next(s, step, s');
      if step == Finish(0) {
        FinishRound(t, s, s');
        tables := Extend(tables, Turns(run, steps, n - 1), s.cpus[0].pc.i, Fairness.Table(s'.procs, s'.mlfqTicks));
      } else {
        StepSince(t, s, step, s');
      }
    }
  }

  lemma StepSince(t: Fairness.Table, s: State, step: Step, s': State)
    requires Shape(s) && Shape(s') && Driven(s, step) && Next(s, step, s') && Since(t, s) && step != Finish(0)
    ensures Since(t, s')
  {
    if step == Check(0) || step == BoostOne(0) {
      BoostingSince(t, s, step, s');
    } else if step == Look(0) {
      LookSince(t, s, s');
    } else if step == Dispatch(0) || step == Release(0) {
      StartSince(t, s, step, s');
    } else {
      ThreadSince(t, s, step, s');
    }
  }

  lemma Extend(tables: seq<Fairness.Table>, picks: seq<nat>, i: nat, t: Fairness.Table)
    returns (tables': seq<Fairness.Table>)
    requires Fairness.IsRun(tables, picks) && Fairness.Round(tables[|tables| - 1], i, t)
    ensures tables' == tables + [t] && Fairness.IsRun(tables', picks + [i])
  {
    tables' := tables + [t];
    var picks' := picks + [i];
    forall n: nat | n < |picks'| ensures Fairness.Round(tables'[n], picks'[n], tables'[n + 1]) {
      if n < |picks| { assert Fairness.Round(tables[n], picks[n], tables[n + 1]); }
    }
  }

  /** Under such load the machine starves nobody: among any BOOST_INTERVAL + NPROC turns in a row
      there is one of every process that was ready at the start. */
  lemma DrivenNoLongWait(run: seq<State>, steps: seq<Step>, n: nat, i: nat) returns (m: nat)
    requires IsDriven(run, steps) && i < NPROC && run[0].procs[i].state == RUNNABLE
    requires n + BOOST_INTERVAL + NPROC <= |Turns(run, steps, |steps|)|
    ensures n <= m < n + BOOST_INTERVAL + NPROC && Turns(run, steps, |steps|)[m] == i
  {
    var tables := DrivenIsRounds(run, steps, |steps|);
    var picks := Turns(run, steps, |steps|);
    StillReady(tables, picks, n, i);
    m := Fairness.NoLongWait(tables, picks, n, i);
  }

  lemma {:induction false} StillReady(tables: seq<Fairness.Table>, picks: seq<nat>, n: nat, i: nat)
    requires Fairness.IsRun(tables, picks) && n < |tables| && i < NPROC && tables[0].procs[i].state == RUNNABLE
    ensures |tables[n].procs| == NPROC && tables[n].procs[i].state == RUNNABLE
  {
    if n > 0 {
      StillReady(tables, picks, n - 1, i);
      assert Fairness.Round(tables[n - 1], picks[n - 1], tables[n]);
    }
  }

  /** The premise holds of every reachable state in which no lock is held and something can run. */
  lemma ReachedReady(run: seq<State>, steps: seq<Step>, k: nat)
    requires IsRun(run, steps) && k < |run| && forall i: nat :: i < NPROC ==> run[k].procs[i].lock == None
    requires exists i: nat :: i < NPROC && run[k].procs[i].state == RUNNABLE
    ensures Ready(run[k].procs)
  {
    RunInv(run, steps, k);
    var s := run[k];
    forall i: nat | i < NPROC ensures ProcReady(s.procs[i]) {
      assert ProcOk(s.cpus, s.procs, i) && LevelOk(s.procs[i]);
      if s.procs[i].state == RUNNABLE { Nobodys(s.cpus, s.procs, i); }
    }
  }

  // ---------- but processes that sleep in time can starve the others ----------

  /** All processes from 2 on are ready, in the highest queue and with a full slice. */
  ghost predicate OthersReady(s: State) {
    Shape(s) && forall j: nat :: 2 <= j < NPROC ==> s.procs[j] == Fresh(RUNNABLE)
  }

  /** It is the turn of process i, which is 0 or 1; the other one sleeps, or has not run yet. */
  ghost predicate PingPong(s: State, i: nat) {
    && OthersReady(s) && i < 2 && s.mlfqTicks < BOOST_INTERVAL && s.cpus[0] == Cpu(Top, None, false)
    && s.procs[i] == Fresh(RUNNABLE)
    && (s.procs[1 - i] == Fresh(SLEEPING) || (i == 0 && s.procs[1] == Fresh(RUNNABLE)))
  }

  /** A stretch of a run in which those processes stay ready and none of them is dispatched. */
  ghost predicate Waits(run: seq<State>, steps: seq<Step>) {
    && |run| == |steps| + 1 && (forall k: nat :: k < |run| ==> OthersReady(run[k]))
    && forall k: nat :: k < |steps| ==> Next(run[k], steps[k], run[k + 1]) && NotTheirs(run[k], steps[k])
  }

  ghost predicate NotTheirs(s: State, step: Step)
    requires Shape(s)
  {
    step.Dispatch? && step.c < NCPU ==> s.cpus[step.c].pc == Selected(0) || s.cpus[step.c].pc == Selected(1)
  }

  /** The scheduler finds process i, which is the first that is ready. */
  lemma Found(s: State, i: nat) returns (run: seq<State>, steps: seq<Step>)
    requires PingPong(s, i)
    ensures Waits(run, steps) && run[0] == s
    ensures run[|run| - 1] == At(Put(s, i, s.procs[i].(lock := Some(0))), 0, Selected(i))
  {
    var s1 := At(s, 0, Scan(0, 0));
    assert s.(cpus := s.cpus[0 := s.cpus[0].(owes := false)]) == s;
    assert Next(s, Check(0), s1);
    var s2 := At(s, 0, Scan(0, i));
    var s3 := At(Put(s, i, s.procs[i].(lock := Some(0))), 0, Selected(i));
    assert Next(s2, Look(0), s3);
    if i == 0 {
      run, steps := [s, s1, s3], [Check(0), Look(0)];
    } else {
      assert Next(s1, Look(0), s2);
      run, steps := [s, s1, s2, s3], [Check(0), Look(0), Look(0)];
    }
  }

  /** It runs, ... */
  lemma Started(s: State, i: nat) returns (run: seq<State>, steps: seq<Step>)
    requires OthersReady(s) && i < 2 && s.cpus[0] == Cpu(Selected(i), None, false)
             && s.procs[i] == Fresh(RUNNABLE).(lock := Some(0))
    ensures Waits(run, steps) && run[0] == s && Dispatch(0) in steps
    ensures run[|run| - 1] == s.(procs := s.procs[i := Fresh(RUNNING).(cpu := Some(0), saved := false)],
                                 cpus := s.cpus[0 := Cpu(Run(i), Some(i), false)])
  {
    var s1 := s.(procs := s.procs[i := Fresh(RUNNING).(lock := Some(0), cpu := Some(0), saved := false)],
                 cpus := s.cpus[0 := Cpu(Resumed(i), Some(i), false)]);
    var s2 := s.(procs := s.procs[i := Fresh(RUNNING).(cpu := Some(0), saved := false)],
                 cpus := s.cpus[0 := Cpu(Run(i), Some(i), false)]);
    assert Next(s, Dispatch(0), s1);
    assert Next(s1, Release(0), s2);
    run, steps := [s, s1, s2], [Dispatch(0), Release(0)];
    assert steps[0] == Dispatch(0);
  }

  /** ... wakes the other one, if that is asleep, ... */
  lemma Woken(s: State, i: nat) returns (run: seq<State>, steps: seq<Step>)
    requires OthersReady(s) && i < 2 && (s.procs[i] == Fresh(SLEEPING) || s.procs[i] == Fresh(RUNNABLE))
    ensures Waits(run, steps) && run[0] == s && run[|run| - 1] == s.(procs := s.procs[i := Fresh(RUNNABLE)])
  {
    var s1 := s.(procs := s.procs[i := Fresh(RUNNABLE)]);
    if s.procs[i] == Fresh(SLEEPING) {
      assert Next(s, Wakeup(i), s1);
      run, steps := [s, s1], [Wakeup(i)];
    } else {
      assert s1.procs == s.procs;
      run, steps := [s], [];
    }
  }

  /** ... and sleeps before the next tick. */
  lemma Slept(s: State, i: nat) returns (run: seq<State>, steps: seq<Step>)
    requires OthersReady(s) && i < 2 && s.cpus[0] == Cpu(Run(i), Some(i), false)
    requires s.procs[i] == Fresh(RUNNING).(cpu := Some(0), saved := false)
    ensures Waits(run, steps) && run[0] == s
    ensures run[|run| - 1] == s.(procs := s.procs[i := Fresh(SLEEPING)], cpus := s.cpus[0 := Cpu(Top, None, false)])
  {
    var s1 := s.(procs := s.procs[i := Fresh(SLEEPING).(lock := Some(0), cpu := Some(0), saved := false)],
                 cpus := s.cpus[0 := Cpu(Leaving(i), Some(i), false)]);
    var s2 := s.(procs := s.procs[i := Fresh(SLEEPING).(lock := Some(0), cpu := Some(0))],
                 cpus := s.cpus[0 := Cpu(Back(i), Some(i), false)]);
    var s3 := s.(procs := s.procs[i := Fresh(SLEEPING)], cpus := s.cpus[0 := Cpu(Top, None, false)]);
    assert Next(s, Sleep(0), s1);
    assert Next(s1, Swtch(0), s2);
    assert Next(s2, Finish(0), s3);
    run, steps := [s, s1, s2, s3], [Sleep(0), Swtch(0), Finish(0)];
  }

  lemma Join(a: seq<State>, x: seq<Step>, b: seq<State>, y: seq<Step>) returns (run: seq<State>, steps: seq<Step>)
    requires Waits(a, x) && Waits(b, y) && a[|a| - 1] == b[0]
    ensures Waits(run, steps) && steps == x + y && run[0] == a[0] && run[|run| - 1] == b[|b| - 1]
  {
    run, steps := a[..|a| - 1] + b, x + y;
    forall k: nat | k < |run| ensures OthersReady(run[k]) && run[k] == if k < |x| then a[k] else b[k - |x|] {
    }
    forall k: nat | k < |steps| ensures Next(run[k], steps[k], run[k + 1]) && NotTheirs(run[k], steps[k]) {
      if k < |x| {
        assert run[k + 1] == a[k + 1] && Next(a[k], x[k], a[k + 1]);
      } else {
        assert Next(b[k - |x|], y[k - |x|], b[k - |x| + 1]);
      }
    }
  }

  lemma Turn(s: State, i: nat) returns (run: seq<State>, steps: seq<Step>)
    requires PingPong(s, i)
    ensures Waits(run, steps) && run[0] == s && PingPong(run[|run| - 1], 1 - i) && Dispatch(0) in steps
  {
    var a, x := Found(s, i);
    var b, y := Started(a[|a| - 1], i);
    run, steps := Join(a, x, b, y);
    a, x := Woken(b[|b| - 1], 1 - i);
    run, steps := Join(run, steps, a, x);
    b, y := Slept(a[|a| - 1], i);
    run, steps := Join(run, steps, b, y);
  }

  /** How many times CPU 0 dispatched a process. */
  function Dispatches(steps: seq<Step>): nat {
    if steps == [] then 0 else (if steps[0] == Dispatch(0) then 1 else 0) + Dispatches(steps[1..])
  }

  lemma {:induction false} DispatchesJoin(x: seq<Step>, y: seq<Step>)
    ensures Dispatches(x + y) >= Dispatches(y) + (if Dispatch(0) in x then 1 else 0)
  {
    if x == [] {
      assert x + y == y;
    } else {
      assert (x + y)[1..] == x[1..] + y;
      DispatchesJoin(x[1..], y);
    }
  }

  lemma {:induction false} PingPongWaits(s: State, i: nat, n: nat) returns (run: seq<State>, steps: seq<Step>)
    requires PingPong(s, i)
    ensures Waits(run, steps) && run[0] == s && Dispatches(steps) >= n
    decreases n
  {
    if n == 0 {
      run, steps := [s], [];
    } else {
      var a, x := Turn(s, i);
      var b, y := PingPongWaits(a[|a| - 1], 1 - i, n - 1);
      run, steps := Join(a, x, b, y);
      DispatchesJoin(x, y);
    }
  }

  /** All processes are ready and no CPU has done anything. */
  function Start(): (s: State)
    ensures Init(s)
  {
    State(seq(NCPU, _ => Cpu(Top, None, false)), seq(NPROC, _ => Fresh(RUNNABLE)), 0, 0, 0)
  }

  lemma NeverTheirs(run: seq<State>, steps: seq<Step>)
    requires Waits(run, steps)
    ensures forall k: nat, c: nat, j: nat :: k < |steps| && c < NCPU && 2 <= j && steps[k] == Dispatch(c) ==>
              run[k].cpus[c].pc != Selected(j)
  {
    forall k: nat, c: nat, j: nat | k < |steps| && c < NCPU && 2 <= j && steps[k] == Dispatch(c)
      ensures run[k].cpus[c].pc != Selected(j)
    {
      assert NotTheirs(run[k], steps[k]);
    }
  }

  /** Without the timer there is no bound: processes 0 and 1, which wake each other and sleep before
      the next tick, keep all others waiting for any number of turns, although those are RUNNABLE all
      the time and where a boost would put them. */
  lemma Starvation(n: nat) returns (run: seq<State>, steps: seq<Step>)
    ensures IsRun(run, steps) && Dispatches(steps) >= n
    ensures forall k: nat, j: nat :: k < |run| && 2 <= j < NPROC ==> run[k].procs[j] == Fresh(RUNNABLE)
    ensures forall k: nat, c: nat, j: nat :: k < |steps| && c < NCPU && 2 <= j && steps[k] == Dispatch(c) ==>
              run[k].cpus[c].pc != Selected(j)
  {
    run, steps := PingPongWaits(Start(), 0, n);
    NeverTheirs(run, steps);
  }

  // ---------- and so can processes that reset each other's priority, boosts or not ----------

  predicate Plain(p: Proc) {
    p.state == RUNNABLE && p.lock == None && p.cpu == None && p.saved && !p.window
  }

  /** Processes 0 and 1 can run, and one of them is in the highest queue. */
  ghost predicate Rivals(s: State) {
    && OthersReady(s) && Plain(s.procs[0]) && Plain(s.procs[1]) && s.cpus[0].proc == None
    && (s.procs[0].priority == 0 || s.procs[1].priority == 0)
  }

  /** Every tick counts towards a boost. */
  function Clock(s: State): nat {
    BOOST_INTERVAL * s.boosts + s.mlfqTicks
  }

  /** The whole of priority_boost. */
  lemma {:induction false} Boosting(s: State, i: nat) returns (run: seq<State>, steps: seq<Step>)
    requires Rivals(s) && i < NPROC && s.cpus[0].pc == Boost(i)
    ensures Waits(run, steps) && run[0] == s
    ensures var t := run[|run| - 1];
            Rivals(t) && t.cpus[0].pc == Scan(0, 0) && t.mlfqTicks == s.mlfqTicks && t.boosts == s.boosts
    decreases NPROC - i
  {
    var t := At(Put(s, i, Boosted(s.procs[i])), 0, if i + 1 < NPROC then Boost(i + 1) else Scan(0, 0));
    assert Next(s, BoostOne(0), t);
    run, steps := [s, t], [BoostOne(0)];
    if i + 1 < NPROC {
      var b, y := Boosting(t, i + 1);
      run, steps := Join(run, steps, b, y);
    }
  }

  /** The boost check, and the boost when it is due. */
  lemma ToScan(s: State) returns (run: seq<State>, steps: seq<Step>)
    requires Rivals(s) && s.cpus[0].pc == Top && s.mlfqTicks <= BOOST_INTERVAL
    ensures Waits(run, steps) && run[0] == s
    ensures var t := run[|run| - 1];
            Rivals(t) && t.cpus[0].pc == Scan(0, 0) && t.mlfqTicks < BOOST_INTERVAL && Clock(t) == Clock(s)
  {
    var s1 := s.(cpus := s.cpus[0 := s.cpus[0].(owes := false)]);
    if s.mlfqTicks >= BOOST_INTERVAL {
      var t := At(s1.(mlfqTicks := 0, boosts := s.boosts + 1), 0, Boost(0));
      assert Next(s, Check(0), t);
      var b, y := Boosting(t, 0);
      run, steps := Join([s, t], [Check(0)], b, y);
    } else {
      var t := At(s1, 0, Scan(0, 0));
      assert Next(s, Check(0), t);
      run, steps := [s, t], [Check(0)];
    }
  }

  lemma ToSelected(s: State) returns (run: seq<State>, steps: seq<Step>, i: nat)
    requires Rivals(s) && s.cpus[0].pc == Scan(0, 0)
    ensures Waits(run, steps) && run[0] == s && i < 2 && s.procs[i].priority == 0
    ensures run[|run| - 1] == At(Put(s, i, s.procs[i].(lock := Some(0))), 0, Selected(i))
  {
    i := if s.procs[0].priority == 0 then 0 else 1;
    var s1 := At(s, 0, Scan(0, i));
    var s2 := At(Put(s, i, s.procs[i].(lock := Some(0))), 0, Selected(i));
    assert Next(s1, Look(0), s2);
    if i == 0 {
      assert s1 == s;
      run, steps := [s, s2], [Look(0)];
    } else {
      assert Next(s, Look(0), s1);
      run, steps := [s, s1, s2], [Look(0), Look(0)];
    }
  }

  /** Process i runs and puts the other one into the highest queue. */
  lemma Helps(s: State, i: nat) returns (run: seq<State>, steps: seq<Step>)
    requires OthersReady(s) && i < 2 && s.cpus[0].pc == Selected(i) && s.procs[1 - i].lock == None
             && s.procs[1 - i].state == RUNNABLE
    ensures Waits(run, steps) && run[0] == s
    ensures run[|run| - 1] ==
            s.(procs := s.procs[i := s.procs[i].(state := RUNNING, saved := false, cpu := Some(0), lock := None)]
                               [1 - i := s.procs[1 - i].(priority := 0, ticksUsed := 0, preset := true)],
               cpus := s.cpus[0 := s.cpus[0].(pc := Run(i), proc := Some(i))])
  {
    var p := s.procs[i].(state := RUNNING, saved := false, cpu := Some(0));
    var s1 := s.(procs := s.procs[i := p], cpus := s.cpus[0 := s.cpus[0].(pc := Resumed(i), proc := Some(i))]);
    var s2 := s.(procs := s.procs[i := p.(lock := None)],
                 cpus := s.cpus[0 := s.cpus[0].(pc := Run(i), proc := Some(i))]);
    var s3 := Put(s2, 1 - i, s.procs[1 - i].(priority := 0, ticksUsed := 0, preset := true));
    assert Next(s, Dispatch(0), s1);
    assert Next(s1, Release(0), s2);
    assert Next(s2, SetPriority(1 - i, 0), s3);
    run, steps := [s, s1, s2, s3], [Dispatch(0), Release(0), SetPriority(1 - i, 0)];
  }

  /** It is charged for a tick, ... */
  lemma Charges(s: State, i: nat) returns (run: seq<State>, steps: seq<Step>)
    requires OthersReady(s) && i < 2 && s.cpus[0].pc == Run(i) && s.procs[i].lock == None
    ensures Waits(run, steps) && run[0] == s
    ensures run[|run| - 1] == s.(procs := s.procs[i := ChargedProc(s.procs[i])],
                                 cpus := s.cpus[0 := s.cpus[0].(pc := Ticked(i), owes := true)],
                                 mlfqTicks := s.mlfqTicks + 1, charged := s.charged + 1)
  {
    var s1 := At(Put(s, i, ChargedProc(s.procs[i])), 0, Charged(i));
    var s2 := s.(procs := s.procs[i := ChargedProc(s.procs[i])],
                 cpus := s.cpus[0 := s.cpus[0].(pc := Ticked(i), owes := true)],
                 mlfqTicks := s.mlfqTicks + 1, charged := s.charged + 1);
    assert Next(s, Charge(0), s1);
    assert Next(s1, GlobalTick(0), s2);
    run, steps := [s, s1, s2], [Charge(0), GlobalTick(0)];
  }

  /** ... and yields. */
  lemma Yields(s: State, i: nat) returns (run: seq<State>, steps: seq<Step>)
    requires OthersReady(s) && i < 2 && s.cpus[0].pc == Ticked(i) && s.procs[i].lock == None
    ensures Waits(run, steps) && run[0] == s
    ensures var p := Yielded(s.procs[i], 0);
            run[|run| - 1] == s.(procs := s.procs[i := p.(saved := true, lock := None, cpu := None)],
                                 cpus := s.cpus[0 := s.cpus[0].(pc := Top, proc := None)])
  {
    var p := Yielded(s.procs[i], 0);
    var s1 := At(Put(s, i, p), 0, Leaving(i));
    var s2 := At(Put(s, i, p.(saved := true)), 0, Back(i));
    var s3 := s.(procs := s.procs[i := p.(saved := true, lock := None, cpu := None)],
                 cpus := s.cpus[0 := s.cpus[0].(pc := Top, proc := None)]);
    assert Next(s, Yield(0), s1);
    assert Next(s1, Swtch(0), s2);
    assert Next(s2, Finish(0), s3);
    run, steps := [s, s1, s2, s3], [Yield(0), Swtch(0), Finish(0)];
  }

  /** One turn: the clock has advanced by one tick, and the other process comes next. */
  lemma RivalTurn(s: State) returns (run: seq<State>, steps: seq<Step>)
    requires Rivals(s) && s.cpus[0].pc == Top && s.mlfqTicks <= BOOST_INTERVAL
    ensures Waits(run, steps) && run[0] == s
    ensures var t := run[|run| - 1];
            Rivals(t) && t.cpus[0].pc == Top && t.mlfqTicks <= BOOST_INTERVAL && Clock(t) == Clock(s) + 1
  {
    var a, x := ToScan(s);
    var b, y, i := ToSelected(a[|a| - 1]);
    run, steps := Join(a, x, b, y);
    a, x := Helps(b[|b| - 1], i);
    run, steps := Join(run, steps, a, x);
    b, y := Charges(a[|a| - 1], i);
    run, steps := Join(run, steps, b, y);
    a, x := Yields(b[|b| - 1], i);
    run, steps := Join(run, steps, a, x);
  }

  lemma {:induction false} RivalsRun(s: State, n: nat) returns (run: seq<State>, steps: seq<Step>)
    requires Rivals(s) && s.cpus[0].pc == Top && s.mlfqTicks <= BOOST_INTERVAL
    ensures Waits(run, steps) && run[0] == s
    ensures run[|run| - 1].mlfqTicks <= BOOST_INTERVAL && Clock(run[|run| - 1]) == Clock(s) + n
    decreases n
  {
    if n == 0 {
      run, steps := [s], [];
    } else {
      var a, x := RivalTurn(s);
      var b, y := RivalsRun(a[|a| - 1], n - 1);
      run, steps := Join(a, x, b, y);
    }
  }

  /** Nor does the boost help when processes 0 and 1 put each other back into the highest queue: there
      are runs with any number of boosts in which no other process is dispatched, all of them RUNNABLE. */
  lemma StarvationDespiteBoosts(n: nat) returns (run: seq<State>, steps: seq<Step>)
    ensures IsRun(run, steps) && run[|run| - 1].boosts >= n
    ensures forall k: nat, j: nat :: k < |run| && 2 <= j < NPROC ==> run[k].procs[j] == Fresh(RUNNABLE)
    ensures forall k: nat, c: nat, j: nat :: k < |steps| && c < NCPU && 2 <= j && steps[k] == Dispatch(c) ==>
              run[k].cpus[c].pc != Selected(j)
  {
    run, steps := RivalsRun(Start(), BOOST_INTERVAL * n + 1);
    NeverTheirs(run, steps);
  }
}
