/** No starvation under CPU-bound load: the scheduler on one CPU, with a fixed set of RUNNABLE
    processes that do nothing but run until the next timer tick (kernel/proc.c, kernel/trap.c).

    A round is one turn of scheduler()'s loop: the boost check, the search, and the tick and yield
    of the process found, with the very functions of the step machine in module Scheduler. */
module Fairness {
  import opened Options
  import opened Scheduler

  datatype Table = Table(procs: seq<Proc>, ticks: nat)

  /** The process has run until the tick and yielded. */
  function Ran(p: Proc): Proc {
    Yielded(ChargedProc(p), 0).(lock := None)
  }

  function BoostAll(procs: seq<Proc>): (r: seq<Proc>)
    ensures |r| == |procs| && forall i: nat :: i < |procs| ==> r[i] == Boosted(procs[i])
  {
    seq(|procs|, i requires 0 <= i < |procs| => Boosted(procs[i]))
  }

  function Checked(t: Table): Table {
    if t.ticks >= BOOST_INTERVAL then Table(BoostAll(t.procs), 0) else t
  }

  /** What Scheduler.Search returns. */
  ghost predicate Picks(procs: seq<Proc>, i: nat) {
    && i < |procs| && procs[i].state == RUNNABLE
    && forall j: nat :: j < |procs| && procs[j].state == RUNNABLE ==> Before(procs, i, j)
  }

  ghost predicate Round(t: Table, i: nat, t': Table) {
    var u := Checked(t);
    Picks(u.procs, i) && t' == Table(u.procs[i := Ran(u.procs[i])], u.ticks + 1)
  }

  /** A turn of scheduler()'s loop on one CPU, with the search as written there. */
  method OneRound(t: Table) returns (i: nat, t': Table)
    requires exists j: nat :: j < |t.procs| && t.procs[j].state == RUNNABLE && t.procs[j].priority < NMLFQ
    ensures Round(t, i, t')
  {
    var u := Checked(t);
    ghost var j: nat :| j < |t.procs| && t.procs[j].state == RUNNABLE && t.procs[j].priority < NMLFQ;
    assert u.procs[j].state == RUNNABLE && u.procs[j].priority < NMLFQ;
    var found := Search(u.procs);
    i := found.value;
    t' := Table(u.procs[i := Ran(u.procs[i])], u.ticks + 1);
  }

  ghost predicate IsRun(run: seq<Table>, picks: seq<nat>) {
    && |run| == |picks| + 1 && |run[0].procs| == NPROC
    && forall n: nat :: n < |picks| ==> Round(run[n], picks[n], run[n + 1])
  }

  // ---------- table order among the runnable ----------

  /** How many runnable processes come before entry i. */
  function Rank(procs: seq<Proc>, i: nat): nat
    requires i <= |procs|
  {
    if i == 0 then 0 else Rank(procs, i - 1) + (if procs[i - 1].state == RUNNABLE then 1 else 0)
  }

  function Runnables(procs: seq<Proc>): nat {
    Rank(procs, |procs|)
  }

  lemma {:induction false} RankMono(procs: seq<Proc>, i: nat, j: nat)
    requires i < j <= |procs|
    ensures Rank(procs, i) + (if procs[i].state == RUNNABLE then 1 else 0) <= Rank(procs, j)
  {
    if i + 1 < j { RankMono(procs, i, j - 1); }
  }

  lemma {:induction false} RankBound(procs: seq<Proc>, i: nat)
    requires i <= |procs|
    ensures Rank(procs, i) <= i
  {
    if i > 0 { RankBound(procs, i - 1); }
  }

  lemma {:induction false} RankSame(procs: seq<Proc>, procs': seq<Proc>, i: nat)
    requires i <= |procs| == |procs'| && forall j: nat :: j < |procs| ==>
               (procs'[j].state == RUNNABLE <==> procs[j].state == RUNNABLE)
    ensures Rank(procs', i) == Rank(procs, i)
  {
    if i > 0 { RankSame(procs, procs', i - 1); }
  }

  /** Every rank is taken. */
  lemma {:induction false} RankOnto(procs: seq<Proc>, k: nat, n: nat) returns (i: nat)
    requires n <= |procs| && k < Rank(procs, n)
    ensures i < n && procs[i].state == RUNNABLE && Rank(procs, i) == k
  {
    if k < Rank(procs, n - 1) {
      i := RankOnto(procs, k, n - 1);
    } else {
      i := n - 1;
    }
  }

  /** Only once. */
  lemma RankInjective(procs: seq<Proc>, i: nat, j: nat)
    requires i < |procs| && j < |procs| && procs[i].state == RUNNABLE && procs[j].state == RUNNABLE
             && Rank(procs, i) == Rank(procs, j)
    ensures i == j
  {
    if i < j { RankMono(procs, i, j); }
    if j < i { RankMono(procs, j, i); }
  }

  // ---------- the state t ticks after a boost, in closed form ----------

  datatype Spot = Spot(priority: nat, used: nat)

  /** Where the process of rank k stands, out of R. */
  function Place(R: nat, t: nat, k: nat): Spot {
    if t < R then (if k < t then Spot(1, 0) else Spot(0, 0))
    else if t < 3 * R then
      var d := t - R;
      if k < d / 2 then Spot(2, 0) else if k == d / 2 then Spot(1, d % 2) else Spot(1, 0)
    else if k == 0 then Spot(2, (t - 3 * R) % 4)
    else Spot(2, 0)
  }

  /** The rank of the process that runs next. */
  function Turn(R: nat, t: nat): nat {
    if t < R then t else if t < 3 * R then (t - R) / 2 else 0
  }

  /** Ticks received by then. */
  function Share(R: nat, t: nat, k: nat): nat {
    (if k < t then 1 else 0)
    + (if t < R + 2 * k then 0 else if t < R + 2 * k + 2 then t - R - 2 * k else 2)
    + (if k == 0 && t > 3 * R then t - 3 * R else 0)
  }

  /** The next process in line is ahead of all others. */
  lemma TurnFirst(R: nat, t: nat, k: nat)
    requires k < R && k != Turn(R, t)
    ensures Turn(R, t) < R
    ensures var a, b := Place(R, t, Turn(R, t)), Place(R, t, k);
            a.priority < b.priority || (a.priority == b.priority && Turn(R, t) < k)
  {
  }

  lemma TurnBound(R: nat, t: nat)
    requires R > 0
    ensures Turn(R, t) < R
  {
  }

  predicate Stands(p: Proc, spot: Spot) {
    p.priority == spot.priority && p.ticksUsed == spot.used
  }

  lemma PlaceStep(R: nat, t: nat, k: nat, p: Proc)
    requires k < R && Stands(p, Place(R, t, k))
    ensures if k == Turn(R, t) then Stands(Ran(p), Place(R, t + 1, k)) else Place(R, t + 1, k) == Place(R, t, k)
  {
    if R <= t < 3 * R {
      var d := t - R;
      assert d == 2 * (d / 2) + d % 2;
    } else if t >= 3 * R {
      var d := t - 3 * R;
      assert (d + 1) % 4 == if d % 4 == 3 then 0 else d % 4 + 1;
    }
  }

  lemma ShareStep(R: nat, t: nat, k: nat)
    requires k < R
    ensures Share(R, t + 1, k) == Share(R, t, k) + (if k == Turn(R, t) then 1 else 0)
  {
  }

  // ---------- a period ----------

  /** All runnable processes stand as the closed form says, t ticks after the boost at which their
      totals were those of `base`. */
  ghost predicate Phase(procs: seq<Proc>, base: seq<Proc>, t: nat) {
    && |procs| == |base|
    && (forall i: nat :: i < |procs| ==> (procs[i].state == RUNNABLE <==> base[i].state == RUNNABLE))
    && (forall i: nat :: i < |procs| && procs[i].state == RUNNABLE ==> InPhase(procs, base, t, i))
  }

  ghost predicate InPhase(procs: seq<Proc>, base: seq<Proc>, t: nat, i: nat)
    requires i < |procs| == |base|
  {
    var R, k := Runnables(base), Rank(base, i);
    Stands(procs[i], Place(R, t, k)) && procs[i].total == base[i].total + Share(R, t, k)
  }

  lemma BoostStarts(procs: seq<Proc>)
    ensures Phase(BoostAll(procs), procs, 0)
  {
    forall i: nat | i < |procs| && procs[i].state == RUNNABLE ensures InPhase(BoostAll(procs), procs, 0, i) {
      RankMono(procs, i, |procs|);
    }
  }

  lemma PickIsTurn(procs: seq<Proc>, base: seq<Proc>, t: nat, i: nat)
    requires Phase(procs, base, t) && Picks(procs, i)
    ensures Rank(base, i) == Turn(Runnables(base), t)
  {
    var R, k := Runnables(base), Rank(base, i);
    RankMono(base, i, |base|);
    if k != Turn(R, t) {
      TurnFirst(R, t, k);
      var j := RankOnto(base, Turn(R, t), |base|);
      assert InPhase(procs, base, t, i) && InPhase(procs, base, t, j) && Before(procs, i, j);
      if i < j { RankMono(base, i, j); }
    }
  }

  lemma PhaseStep(procs: seq<Proc>, base: seq<Proc>, t: nat, i: nat)
    requires Phase(procs, base, t) && Picks(procs, i)
    ensures Phase(procs[i := Ran(procs[i])], base, t + 1)
  {
    var R, procs' := Runnables(base), procs[i := Ran(procs[i])];
    PickIsTurn(procs, base, t, i);
    forall j: nat | j < |procs| && procs'[j].state == RUNNABLE ensures InPhase(procs', base, t + 1, j) {
      var k := Rank(base, j);
      RankMono(base, j, |base|);
      assert InPhase(procs, base, t, j);
      PlaceStep(R, t, k, procs[j]);
      ShareStep(R, t, k);
      if k == Rank(base, i) { RankInjective(base, i, j); }
    }
  }

  /** t ticks after a boost the run is in phase t, and the t-th dispatch was of rank Turn(R, t). */
  lemma {:induction false} Period(run: seq<Table>, picks: seq<nat>, a: nat, t: nat)
    requires IsRun(run, picks) && a + t < |run| && run[a].ticks >= BOOST_INTERVAL && t <= BOOST_INTERVAL
    ensures t < BOOST_INTERVAL ==> Phase(Checked(run[a + t]).procs, run[a].procs, t) && Checked(run[a + t]).ticks == t
    ensures t > 0 ==> Phase(run[a + t].procs, run[a].procs, t) && run[a + t].ticks == t
  {
    if t == 0 {
      BoostStarts(run[a].procs);
    } else {
      Period(run, picks, a, t - 1);
      assert Round(run[a + t - 1], picks[a + t - 1], run[a + t]);
      PhaseStep(Checked(run[a + t - 1]).procs, run[a].procs, t - 1, picks[a + t - 1]);
    }
  }

  lemma Dispatched(run: seq<Table>, picks: seq<nat>, a: nat, t: nat)
    requires IsRun(run, picks) && a + t < |picks| && run[a].ticks >= BOOST_INTERVAL && t < BOOST_INTERVAL
    ensures picks[a + t] < |run[a].procs| && run[a].procs[picks[a + t]].state == RUNNABLE
    ensures Rank(run[a].procs, picks[a + t]) == Turn(Runnables(run[a].procs), t)
  {
    Period(run, picks, a, t);
    assert Round(run[a + t], picks[a + t], run[a + t + 1]);
    PickIsTurn(Checked(run[a + t]).procs, run[a].procs, t, picks[a + t]);
  }

  /** The first R dispatches after a boost visit each runnable process once, in table order. */
  lemma FirstRoundInOrder(run: seq<Table>, picks: seq<nat>, a: nat, t: nat, i: nat)
    requires IsRun(run, picks) && a + t < |picks| && run[a].ticks >= BOOST_INTERVAL && |run[a].procs| == NPROC
    requires t < Runnables(run[a].procs) && i < NPROC && run[a].procs[i].state == RUNNABLE
    ensures picks[a + t] == i <==> Rank(run[a].procs, i) == t
  {
    RankBound(run[a].procs, NPROC);
    Dispatched(run, picks, a, t);
    if Rank(run[a].procs, i) == t { RankInjective(run[a].procs, i, picks[a + t]); }
  }

  /** Ties go to table order, not round robin: once all are in the lowest queue, until the next boost
      only the first of the table runs. */
  lemma LowestQueueIsNotShared(run: seq<Table>, picks: seq<nat>, a: nat, t: nat, i: nat)
    requires IsRun(run, picks) && a + t < |picks| && run[a].ticks >= BOOST_INTERVAL && |run[a].procs| == NPROC
    requires 3 * Runnables(run[a].procs) <= t < BOOST_INTERVAL && i < NPROC && run[a].procs[i].state == RUNNABLE
    ensures picks[a + t] == i <==> Rank(run[a].procs, i) == 0
  {
    Dispatched(run, picks, a, t);
    if Rank(run[a].procs, i) == 0 { RankInjective(run[a].procs, i, picks[a + t]); }
  }

  /** In a period with room for three passes every process gets three ticks, and exactly three,
      but for the first in the table, which gets all that is left. */
  lemma TicksPerPeriod(run: seq<Table>, picks: seq<nat>, a: nat, i: nat)
    requires IsRun(run, picks) && a + BOOST_INTERVAL < |run| && run[a].ticks >= BOOST_INTERVAL
             && |run[a].procs| == NPROC
    requires 3 * Runnables(run[a].procs) <= BOOST_INTERVAL && i < NPROC && run[a].procs[i].state == RUNNABLE
    ensures |run[a + BOOST_INTERVAL].procs| == NPROC
    ensures run[a + BOOST_INTERVAL].procs[i].total - run[a].procs[i].total ==
            if Rank(run[a].procs, i) > 0 then 3 else 3 + BOOST_INTERVAL - 3 * Runnables(run[a].procs)
  {
    Period(run, picks, a, BOOST_INTERVAL);
    RankMono(run[a].procs, i, NPROC);
    assert InPhase(run[a + BOOST_INTERVAL].procs, run[a].procs, BOOST_INTERVAL, i);
  }

  /** The next boost is due when mlfq_ticks gets there, one tick per round. */
  lemma {:induction false} Countdown(run: seq<Table>, picks: seq<nat>, n: nat, d: nat)
    requires IsRun(run, picks) && n + d < |run| && run[n].ticks + d <= BOOST_INTERVAL
    ensures run[n + d].ticks == run[n].ticks + d && SameReady(run[n].procs, run[n + d].procs)
  {
    if d > 0 {
      Countdown(run, picks, n, d - 1);
      assert Round(run[n + d - 1], picks[n + d - 1], run[n + d]);
    }
  }

  ghost predicate SameReady(procs: seq<Proc>, procs': seq<Proc>) {
    |procs'| == |procs| && forall i: nat :: i < |procs| ==>
      (procs'[i].state == RUNNABLE <==> procs[i].state == RUNNABLE)
  }

  lemma {:induction false} TableSize(run: seq<Table>, picks: seq<nat>, n: nat)
    requires IsRun(run, picks) && n < |run|
    ensures |run[n].procs| == NPROC
  {
    if n > 0 {
      TableSize(run, picks, n - 1);
      assert Round(run[n - 1], picks[n - 1], run[n]);
    }
  }

  /** From any moment on, no runnable process waits BOOST_INTERVAL + NPROC ticks for the CPU. */
  lemma NoLongWait(run: seq<Table>, picks: seq<nat>, n: nat, i: nat) returns (m: nat)
    requires IsRun(run, picks) && n + BOOST_INTERVAL + NPROC <= |picks| && i < NPROC && |run[n].procs| == NPROC
    requires run[n].procs[i].state == RUNNABLE
    ensures n <= m < n + BOOST_INTERVAL + NPROC && picks[m] == i
  {
    var d := if run[n].ticks >= BOOST_INTERVAL then 0 else BOOST_INTERVAL - run[n].ticks;
    var a := n + d;
    if d > 0 { Countdown(run, picks, n, d); }
    TableSize(run, picks, a);
    var k := Rank(run[a].procs, i);
    RankBound(run[a].procs, i);
    RankMono(run[a].procs, i, NPROC);
    m := a + k;
    FirstRoundInOrder(run, picks, a, k, i);
  }
}
