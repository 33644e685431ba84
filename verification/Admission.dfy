/** begin_op's reservation against log_write's guard.

    begin_op admits an operation only if MAXOPBLOCKS more writes per running operation still fit
    in LOGSIZE, and the design promises that an operation making at most MAXOPBLOCKS calls to
    log_write never meets the panic "too big a transaction".  The guard also demands
    n < log.size - 1, so the promise depends on the size of the log: it holds exactly when
    log.size > LOGSIZE.  mkfs makes logs of LOGSIZE blocks. */
module Admission {
  import Journal

  const LOGSIZE := Journal.LOGSIZE
  const MAXOPBLOCKS := Journal.MAXOPBLOCKS

  /** n logged blocks; for each running operation the log_write calls it may still make. */
  datatype Load = Load(n: nat, left: seq<nat>)

  datatype Step = Begin | Write(op: nat, absorbed: bool) | End(op: nat)

  predicate Guard(size: nat, a: Load) {
    !(a.n >= LOGSIZE || a.n >= size - 1)
  }

  /** Some operation within its allowance would panic. */
  predicate Panics(size: nat, a: Load) {
    !Guard(size, a) && exists i :: 0 <= i < |a.left| && a.left[i] > 0
  }

  function Remove(s: seq<nat>, i: nat): seq<nat>
    requires i < |s|
  {
    s[..i] + s[i+1..]
  }

  predicate Next(size: nat, a: Load, step: Step, a': Load) {
    match step
    case Begin => a.n + (|a.left| + 1) * MAXOPBLOCKS <= LOGSIZE && a' == Load(a.n, a.left + [MAXOPBLOCKS])
    case Write(i, absorbed) =>
      && i < |a.left| && a.left[i] > 0 && Guard(size, a) && (absorbed ==> a.n > 0)
      && a' == Load(if absorbed then a.n else a.n + 1, a.left[i := a.left[i] - 1])
    case End(i) =>
      && i < |a.left|
      && a' == (if |a.left| == 1 then Load(0, []) else Load(a.n, Remove(a.left, i)))
  }

  ghost predicate IsRun(size: nat, run: seq<Load>, steps: seq<Step>) {
    && |run| == |steps| + 1 && run[0] == Load(0, [])
    && forall k :: 0 <= k < |steps| ==> Next(size, run[k], steps[k], run[k+1])
  }

  function Sum(s: seq<nat>): nat {
    if s == [] then 0 else s[0] + Sum(s[1..])
  }

  lemma {:induction false} SumConcat(s: seq<nat>, t: seq<nat>)
    ensures Sum(s + t) == Sum(s) + Sum(t)
  {
    if s == [] {
      assert s + t == t;
    } else {
      assert (s + t)[1..] == s[1..] + t;
      SumConcat(s[1..], t);
    }
  }

  lemma SumReplace(s: seq<nat>, i: nat, v: nat)
    requires i < |s|
    ensures Sum(s[i := v]) == v + Sum(Remove(s, i))
  {
    assert s[i := v] == s[..i] + ([v] + s[i+1..]);
    SumConcat(s[..i], [v] + s[i+1..]);
    SumConcat(s[..i], s[i+1..]);
  }

  lemma SumSplit(s: seq<nat>, i: nat)
    requires i < |s|
    ensures Sum(s) == s[i] + Sum(Remove(s, i))
  {
    SumReplace(s, i, s[i]);
    assert s[i := s[i]] == s;
  }

  /** Reserved and used space together never exceed LOGSIZE. */
  predicate Reserved(a: Load) {
    && (forall i :: 0 <= i < |a.left| ==> a.left[i] <= MAXOPBLOCKS)
    && a.n + Sum(a.left) <= LOGSIZE
  }

  lemma {:induction false} SumBound(s: seq<nat>)
    requires forall i :: 0 <= i < |s| ==> s[i] <= MAXOPBLOCKS
    ensures Sum(s) <= |s| * MAXOPBLOCKS
  {
    if s != [] {
      SumBound(s[1..]);
    }
  }

  lemma NextReserved(size: nat, a: Load, step: Step, a': Load)
    requires Reserved(a) && Next(size, a, step, a')
    ensures Reserved(a')
  {
    match step {
      case Begin =>
        SumBound(a.left);
        SumConcat(a.left, [MAXOPBLOCKS]);
      case Write(i, absorbed) =>
        SumSplit(a.left, i);
        SumReplace(a.left, i, a.left[i] - 1);
      case End(i) =>
        SumSplit(a.left, i);
    }
  }

  lemma {:induction false} RunReserved(size: nat, run: seq<Load>, steps: seq<Step>, k: nat)
    requires IsRun(size, run, steps) && k < |run|
    ensures Reserved(run[k])
  {
    if k > 0 {
      RunReserved(size, run, steps, k - 1);
      NextReserved(size, run[k-1], steps[k-1], run[k]);
    }
  }

  /** Three operations are admitted, and write distinct blocks until size - 1 are logged. */
  function Calls(n: nat): seq<nat>
    requires n <= LOGSIZE
  {
    if n <= 10 then [10 - n, 10, 10] else if n <= 20 then [0, 20 - n, 10] else [0, 0, 30 - n]
  }

  function Witness(n: nat): (seq<Load>, seq<Step>)
    requires n <= LOGSIZE
  {
    if n == 0 then
      ([Load(0, []), Load(0, [10]), Load(0, [10, 10]), Load(0, [10, 10, 10])], [Begin, Begin, Begin])
    else
      var (run, steps) := Witness(n - 1);
      (run + [Load(n, Calls(n))], steps + [Write((n - 1) / 10, false)])
  }

  lemma {:induction false} WitnessRuns(size: nat, n: nat)
    requires n < LOGSIZE && n < size
    ensures var (run, steps) := Witness(n); IsRun(size, run, steps) && run[|run|-1] == Load(n, Calls(n))
  {
    if n > 0 {
      WitnessRuns(size, n - 1);
      var (run0, steps0) := Witness(n - 1);
      var (run, steps) := Witness(n);
      forall k | 0 <= k < |steps| ensures Next(size, run[k], steps[k], run[k+1]) {
        if k < |steps0| {
          assert Next(size, run0[k], steps0[k], run0[k+1]);
        }
      }
    }
  }

  /** Operations within their allowance never panic, in any run, exactly when log.size > LOGSIZE. */
  lemma PanicFreeIff(size: nat)
    requires size >= 1
    ensures (forall run: seq<Load>, steps: seq<Step> :: IsRun(size, run, steps) ==> !Panics(size, run[|run|-1])) <==>
              size > LOGSIZE
  {
    if size > LOGSIZE {
      forall run: seq<Load>, steps: seq<Step> | IsRun(size, run, steps) ensures !Panics(size, run[|run|-1]) {
        var a := run[|run|-1];
        RunReserved(size, run, steps, |run| - 1);
        forall i | 0 <= i < |a.left| && a.left[i] > 0 ensures Guard(size, a) {
          SumSplit(a.left, i);
        }
      }
    } else {
      var (run, steps) := Witness(size - 1);
      WitnessRuns(size, size - 1);
      var a := run[|run|-1];
      assert a.left[if size - 1 < 10 then 0 else if size - 1 < 20 then 1 else 2] > 0;
      assert Panics(size, a);
      assert IsRun(size, run, steps);
    }
  }

  /** The disk mkfs makes: three admitted operations, twenty-nine blocks logged, one call too many. */
  lemma MkfsLogPanics()
    ensures var (run, steps) := Witness(29); IsRun(LOGSIZE, run, steps) && Panics(LOGSIZE, run[|run|-1])
  {
    WitnessRuns(LOGSIZE, 29);
    var (run, steps) := Witness(29);
    assert run[|run|-1].left[2] == 1;
  }
}
