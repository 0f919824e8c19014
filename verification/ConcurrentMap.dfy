/**
 The bounded worker pool behind `mapWithConcurrency` and `runWithConcurrency`,
 as a state machine: between two awaits a worker's code is one atomic step, and
 any worker may move next.

 The lazy form tests the shared index before advancing it; the eager form
 advances it first, so it runs past the end once per exiting worker.
 */
module ConcurrentMap {

  import opened Options

  /** `allows(item, index, result)`: what the mapper may return for the item. */
  datatype Job<!T, !R> = Job(items: seq<T>, eager: bool, allows: (T, nat, R) -> bool)

  datatype Worker =
    | Idle
    | Running(index: nat)
    | Exited
    | Broken(index: nat)   // its mapper call threw

  /** `started` and `finished` log the mapper's calls and returned values, in the order they happen. */
  datatype Pool<R> = Pool(
    nextIndex: nat,
    workers: seq<Worker>,
    results: seq<Option<R>>,
    started: seq<nat>,
    finished: seq<R>)

  datatype Step<R> = Take(worker: nat) | Exit(worker: nat) | Finish(worker: nat, result: R) | Break(worker: nat)

  function WorkerCount(concurrency: real, n: nat): nat {
    var safe := if concurrency.Floor < 1 then 1 else concurrency.Floor;
    if safe < n then safe else n
  }

  /**
   The least of both bounds: one worker for each whole unit of concurrency, at least one, and none without an item.
   */
  lemma {:induction false} WorkerCountIs(concurrency: real, n: nat, k: nat)
    ensures WorkerCount(concurrency, n) <= n
    ensures concurrency < 2.0 ==> WorkerCount(concurrency, n) <= 1
    ensures 1.0 <= concurrency ==> WorkerCount(concurrency, n) as real <= concurrency
    ensures k <= n && (k <= 1 || k as real <= concurrency) ==> k <= WorkerCount(concurrency, n)
  {
  }

  function Start<R>(n: nat, k: nat): Pool<R> {
    Pool(0, seq(k, i => Idle), seq(n, i => None), [], [])
  }

  ghost predicate Next<T, R>(job: Job<T, R>, s: Pool<R>, s': Pool<R>, step: Step<R>) {
    var w, n := step.worker, |job.items|;
    && w < |s.workers| && |s.results| == n
    && match step
       case Take(_) =>
         && s.workers[w].Idle? && s.nextIndex < n
         && s' == s.(nextIndex := s.nextIndex + 1, workers := s.workers[w := Running(s.nextIndex)],
                     started := s.started + [s.nextIndex])
       case Exit(_) =>
         && s.workers[w].Idle? && n <= s.nextIndex
         && s' == s.(nextIndex := if job.eager then s.nextIndex + 1 else s.nextIndex, workers := s.workers[w := Exited])
       case Finish(_, result) =>
         && s.workers[w].Running? && s.workers[w].index < n
         && job.allows(job.items[s.workers[w].index], s.workers[w].index, result)
         && s' == s.(workers := s.workers[w := Idle], results := s.results[s.workers[w].index := Some(result)],
                     finished := s.finished + [result])
       case Break(_) =>
         && s.workers[w].Running?
         && s' == s.(workers := s.workers[w := Broken(s.workers[w].index)])
  }

  ghost predicate Moves<T, R(!new)>(job: Job<T, R>, s: Pool<R>, s': Pool<R>) {
    exists step :: Next(job, s, s', step)
  }

  ghost predicate Run<T, R(!new)>(job: Job<T, R>, k: nat, run: seq<Pool<R>>) {
    && run != [] && run[0] == Start(|job.items|, k)
    && forall i :: 0 <= i < |run| - 1 ==> Moves(job, run[i], run[i + 1])
  }

  ghost predicate Stuck<T, R(!new)>(job: Job<T, R>, s: Pool<R>) {
    forall s' :: !Moves(job, s, s')
  }

  // ---- Invariant ----------------------------------------------------------

  /** Worker `w` is running the mapper on index `i`, or broke on it. */
  predicate Holds(workers: seq<Worker>, w: int, i: int) {
    0 <= w < |workers| && (workers[w].Running? || workers[w].Broken?) && workers[w].index == i
  }

  ghost predicate Held(workers: seq<Worker>, i: nat) {
    exists w :: Holds(workers, w, i)
  }

  function CountRunning(workers: seq<Worker>): (c: nat)
    ensures c <= |workers|
  {
    if workers == [] then 0 else (if workers[0].Running? then 1 else 0) + CountRunning(workers[1..])
  }

  function CountBroken(workers: seq<Worker>): nat {
    if workers == [] then 0 else (if workers[0].Broken? then 1 else 0) + CountBroken(workers[1..])
  }

  /** The values present in a result array. */
  function Values<R>(results: seq<Option<R>>): seq<R> {
    if results == [] then []
    else (if results[0].Some? then [results[0].value] else []) + Values(results[1..])
  }

  /** No two workers hold one index, and no held index has a result. */
  ghost predicate Exclusive<R>(workers: seq<Worker>, results: seq<Option<R>>, m: nat) {
    && (forall w, i :: Holds(workers, w, i) ==> i < m && i < |results| && results[i].None?)
    && (forall v, w, i :: Holds(workers, v, i) && Holds(workers, w, i) ==> v == w)
  }

  /** Index by index: a result the mapper may return, or held by a worker, or not started. */
  ghost predicate Accounted<T, R>(job: Job<T, R>, workers: seq<Worker>, results: seq<Option<R>>, m: nat) {
    && |results| == |job.items|
    && forall i: nat :: i < |results| ==>
      && (results[i].Some? ==> i < m && job.allows(job.items[i], i, results[i].value))
      && (results[i].None? && i < m ==> Held(workers, i))
  }

  ghost predicate Inv<T, R>(job: Job<T, R>, k: nat, s: Pool<R>) {
    var n, m := |job.items|, |s.started|;
    && |s.workers| == k
    && m == (if s.nextIndex < n then s.nextIndex else n)
    && (forall j :: 0 <= j < m ==> s.started[j] == j)
    && (forall w :: 0 <= w < k && s.workers[w].Exited? ==> m == n)
    && Accounted(job, s.workers, s.results, m)
    && Exclusive(s.workers, s.results, m)
    && m == |s.finished| + CountRunning(s.workers) + CountBroken(s.workers)
    && multiset(s.finished) == multiset(Values(s.results))
  }

  lemma {:induction false} CountsUpdate(workers: seq<Worker>, w: nat, to: Worker)
    requires w < |workers|
    ensures CountRunning(workers[w := to]) + (if workers[w].Running? then 1 else 0)
            == CountRunning(workers) + (if to.Running? then 1 else 0)
    ensures CountBroken(workers[w := to]) + (if workers[w].Broken? then 1 else 0)
            == CountBroken(workers) + (if to.Broken? then 1 else 0)
  {
    if w == 0 {
      assert workers[w := to][1..] == workers[1..];
    } else {
      assert workers[w := to][1..] == workers[1..][w - 1 := to];
      CountsUpdate(workers[1..], w - 1, to);
    }
  }

  lemma {:induction false} ValuesUpdate<R>(results: seq<Option<R>>, i: nat, v: R)
    requires i < |results| && results[i].None?
    ensures multiset(Values(results[i := Some(v)])) == multiset(Values(results)) + multiset{v}
  {
    if i == 0 {
      assert results[i := Some(v)][1..] == results[1..];
    } else {
      assert results[i := Some(v)][1..] == results[1..][i - 1 := Some(v)];
      ValuesUpdate(results[1..], i - 1, v);
    }
  }

  lemma {:induction false} NoneYet<R>(results: seq<Option<R>>)
    requires forall i :: 0 <= i < |results| ==> results[i].None?
    ensures Values(results) == []
  {
    if results != [] {
      NoneYet(results[1..]);
    }
  }

  lemma {:induction false} AllIdle(workers: seq<Worker>)
    requires forall w :: 0 <= w < |workers| ==> !workers[w].Running? && !workers[w].Broken?
    ensures CountRunning(workers) == CountBroken(workers) == 0
  {
    if workers != [] {
      AllIdle(workers[1..]);
    }
  }

  lemma {:induction false} StartInv<T, R>(job: Job<T, R>, k: nat)
    ensures Inv(job, k, Start(|job.items|, k))
  {
    var s: Pool<R> := Start(|job.items|, k);
    NoneYet(s.results);
    AllIdle(s.workers);
  }

  /** Another worker's change leaves what worker `w` does not hold where it was. */
  lemma {:induction false} StillHeld(workers: seq<Worker>, w: nat, to: Worker, i: nat)
    requires w < |workers| && Held(workers, i) && (Holds(workers, w, i) ==> Holds(workers[w := to], w, i))
    ensures Held(workers[w := to], i)
  {
    var v :| Holds(workers, v, i);
    assert Holds(workers[w := to], v, i);
  }

  lemma {:induction false} ExclusiveTake<R>(workers: seq<Worker>, results: seq<Option<R>>, m: nat, w: nat)
    requires Exclusive(workers, results, m) && w < |workers| && workers[w].Idle?
    requires m < |results| && results[m].None?
    ensures Exclusive(workers[w := Running(m)], results, m + 1)
  {
    var after := workers[w := Running(m)];
    assert forall v, i :: Holds(after, v, i) ==> Holds(workers, v, i) || (v == w && i == m);
  }

  /** Worker `w` lets go of its index, or keeps it: only what `w` alone held may have got a result. */
  lemma {:induction false} ExclusiveDrop<R>(workers: seq<Worker>, results: seq<Option<R>>, m: nat, w: nat, to: Worker,
                                            after: seq<Option<R>>)
    requires Exclusive(workers, results, m) && w < |workers| && |after| == |results|
    requires forall i :: Holds(workers[w := to], w, i) ==> Holds(workers, w, i)
    requires forall i: nat :: i < |results| && after[i] != results[i] ==>
             Holds(workers, w, i) && !Holds(workers[w := to], w, i)
    ensures Exclusive(workers[w := to], after, m)
  {
    var now := workers[w := to];
    assert forall v, i :: Holds(now, v, i) ==> Holds(workers, v, i);
  }

  lemma {:induction false} TakeKeeps<T, R>(job: Job<T, R>, k: nat, s: Pool<R>, s': Pool<R>, w: nat)
    requires Inv(job, k, s) && Next(job, s, s', Take(w))
    ensures Inv(job, k, s')
  {
    CountsUpdate(s.workers, w, Running(s.nextIndex));
    ExclusiveTake(s.workers, s.results, |s.started|, w);
    forall i: nat | i < |s'.results| && s'.results[i].None? && i < |s'.started|
      ensures Held(s'.workers, i)
    {
      if i < |s.started| {
        StillHeld(s.workers, w, Running(s.nextIndex), i);
      } else {
        assert Holds(s'.workers, w, i);
      }
    }
  }

  lemma {:induction false} FinishKeeps<T, R>(job: Job<T, R>, k: nat, s: Pool<R>, s': Pool<R>, w: nat, result: R)
    requires Inv(job, k, s) && Next(job, s, s', Finish(w, result))
    ensures Inv(job, k, s')
  {
    var index := s.workers[w].index;
    assert Holds(s.workers, w, index);
    CountsUpdate(s.workers, w, Idle);
    ExclusiveDrop(s.workers, s.results, |s.started|, w, Idle, s'.results);
    ValuesUpdate(s.results, index, result);
    forall i: nat | i < |s'.results| && s'.results[i].None? && i < |s'.started|
      ensures Held(s'.workers, i)
    {
      StillHeld(s.workers, w, Idle, i);
    }
  }

  lemma {:induction false} StopKeeps<T, R>(job: Job<T, R>, k: nat, s: Pool<R>, s': Pool<R>, step: Step<R>)
    requires Inv(job, k, s) && Next(job, s, s', step) && (step.Exit? || step.Break?)
    ensures Inv(job, k, s')
  {
    var w := step.worker;
    CountsUpdate(s.workers, w, s'.workers[w]);
    ExclusiveDrop(s.workers, s.results, |s.started|, w, s'.workers[w], s.results);
    forall i: nat | i < |s'.results| && s'.results[i].None? && i < |s'.started|
      ensures Held(s'.workers, i)
    {
      StillHeld(s.workers, w, s'.workers[w], i);
    }
  }

  lemma {:induction false} RunInv<T, R(!new)>(job: Job<T, R>, k: nat, run: seq<Pool<R>>, i: nat)
    requires Run(job, k, run) && i < |run|
    ensures Inv(job, k, run[i])
  {
    if i == 0 {
      StartInv(job, k);
    } else {
      RunInv(job, k, run, i - 1);
      assert Moves(job, run[i - 1], run[i - 1 + 1]);
      var step :| Next(job, run[i - 1], run[i], step);
      match step
      case Take(w) => TakeKeeps(job, k, run[i - 1], run[i], w);
      case Finish(w, result) => FinishKeeps(job, k, run[i - 1], run[i], w, result);
      case Exit(_) => StopKeeps(job, k, run[i - 1], run[i], step);
      case Break(_) => StopKeeps(job, k, run[i - 1], run[i], step);
    }
  }

  // ---- Theorems -----------------------------------------------------------

  predicate Settled<R>(s: Pool<R>) {
    forall w :: 0 <= w < |s.workers| ==> s.workers[w].Exited? || s.workers[w].Broken?
  }

  predicate Completed<R>(s: Pool<R>) {
    forall w :: 0 <= w < |s.workers| ==> s.workers[w].Exited?
  }

  /**
   In every run the mapper is called on the indices 0, 1, 2, ... in order, each at most once, and the calls
   not yet returned or thrown are never more than the workers.
   */
  lemma {:induction false} CalledInOrderOnceWithinBound<T, R(!new)>(job: Job<T, R>, concurrency: real,
                                                             run: seq<Pool<R>>, i: nat)
    requires Run(job, WorkerCount(concurrency, |job.items|), run) && i < |run|
    ensures forall j :: 0 <= j < |run[i].started| ==> run[i].started[j] == j < |job.items|
    ensures |run[i].started| - |run[i].finished| - CountBroken(run[i].workers) <= WorkerCount(concurrency, |job.items|)
  {
    RunInv(job, WorkerCount(concurrency, |job.items|), run, i);
  }

  /** When every worker has exited, every index was mapped once and each result sits at its item's index. */
  lemma {:induction false} CompletedMapsAll<T, R(!new)>(job: Job<T, R>, concurrency: real, run: seq<Pool<R>>)
    requires Run(job, WorkerCount(concurrency, |job.items|), run) && Completed(run[|run| - 1])
    ensures var s := run[|run| - 1];
            && |s.started| == |s.finished| == |s.results| == |job.items|
            && (forall i :: 0 <= i < |job.items| ==>
                  s.results[i].Some? && job.allows(job.items[i], i, s.results[i].value))
            && multiset(s.finished) == multiset(Values(s.results))
  {
    var n := |job.items|;
    var k, s := WorkerCount(concurrency, n), run[|run| - 1];
    RunInv(job, k, run, |run| - 1);
    AllIdle(s.workers);
    assert k > 0 ==> s.workers[0].Exited?;
    forall i: nat | i < n
      ensures s.results[i].Some?
    {
      assert !Held(s.workers, i);
    }
  }

  /**
   Calls that throw break only their own workers: while one worker survives, the rest of the items are still
   mapped.
   */
  lemma {:induction false} SurvivorsFinish<T, R(!new)>(job: Job<T, R>, k: nat, run: seq<Pool<R>>, survivor: nat)
    requires Run(job, k, run) && Settled(run[|run| - 1])
    requires survivor < |run[|run| - 1].workers| && run[|run| - 1].workers[survivor].Exited?
    ensures var s := run[|run| - 1];
            && |s.started| == |s.results| == |job.items|
            && (forall i :: 0 <= i < |job.items| ==> (s.results[i].None? <==> Held(s.workers, i)))
            && |s.finished| + CountBroken(s.workers) == |job.items|
  {
    var s := run[|run| - 1];
    RunInv(job, k, run, |run| - 1);
    NoneRunning(s.workers);
    forall i: nat | i < |job.items| && Held(s.workers, i)
      ensures s.results[i].None?
    {
      var w :| Holds(s.workers, w, i);
    }
  }

  lemma {:induction false} NoneRunning(workers: seq<Worker>)
    requires forall w :: 0 <= w < |workers| ==> !workers[w].Running?
    ensures CountRunning(workers) == 0
  {
    if workers != [] {
      NoneRunning(workers[1..]);
    }
  }

  function Weight(workers: seq<Worker>): (c: nat)
    ensures c <= 2 * |workers|
  {
    if workers == [] then 0 else WorkerWeight(workers[0]) + Weight(workers[1..])
  }

  function WorkerWeight(w: Worker): nat {
    if w.Running? then 2 else if w.Idle? then 1 else 0
  }

  lemma {:induction false} WeightUpdate(workers: seq<Worker>, w: nat, to: Worker)
    requires w < |workers|
    ensures Weight(workers[w := to]) + WorkerWeight(workers[w]) == Weight(workers) + WorkerWeight(to)
  {
    if w == 0 {
      assert workers[w := to][1..] == workers[1..];
    } else {
      assert workers[w := to][1..] == workers[1..][w - 1 := to];
      WeightUpdate(workers[1..], w - 1, to);
    }
  }

  function Measure<R>(s: Pool<R>, n: nat): nat {
    2 * (if s.nextIndex < n then n - s.nextIndex else 0) + Weight(s.workers)
  }

  lemma {:induction false} StepDescends<T, R(!new)>(job: Job<T, R>, s: Pool<R>, s': Pool<R>)
    requires Moves(job, s, s')
    ensures Measure(s', |job.items|) < Measure(s, |job.items|)
  {
    var step :| Next(job, s, s', step);
    WeightUpdate(s.workers, step.worker, s'.workers[step.worker]);
  }

  lemma {:induction false} RunDescends<T, R(!new)>(job: Job<T, R>, k: nat, run: seq<Pool<R>>, i: nat)
    requires Run(job, k, run) && i < |run|
    ensures Measure(run[i], |job.items|) + i <= Measure(run[0], |job.items|)
  {
    if i > 0 {
      RunDescends(job, k, run, i - 1);
      assert Moves(job, run[i - 1], run[i - 1 + 1]);
      StepDescends(job, run[i - 1], run[i]);
    }
  }

  lemma {:induction false} IdleWeight(workers: seq<Worker>)
    requires forall w :: 0 <= w < |workers| ==> workers[w].Idle?
    ensures Weight(workers) == |workers|
  {
    if workers != [] {
      IdleWeight(workers[1..]);
    }
  }

  /**
   A run stops only once every worker has returned or thrown, and it always stops: it has at most 2n + k
   steps. (A running call may still settle either way, so it is never what a run is stuck on.)
   */
  lemma {:induction false} AlwaysSettles<T, R(!new)>(job: Job<T, R>, k: nat, run: seq<Pool<R>>)
    requires Run(job, k, run)
    ensures |run| - 1 <= 2 * |job.items| + k
    ensures Settled(run[|run| - 1]) <==> Stuck(job, run[|run| - 1])
  {
    var s := run[|run| - 1];
    RunDescends(job, k, run, |run| - 1);
    IdleWeight(run[0].workers);
    RunInv(job, k, run, |run| - 1);
    if w: nat :| w < |s.workers| && !(s.workers[w].Exited? || s.workers[w].Broken?) {
      var step, s';
      if s.workers[w].Running? {
        step, s' := Break(w), s.(workers := s.workers[w := Broken(s.workers[w].index)]);
      } else if s.nextIndex < |job.items| {
        step := Take(w);
        s' := s.(nextIndex := s.nextIndex + 1, workers := s.workers[w := Running(s.nextIndex)],
                 started := s.started + [s.nextIndex]);
      } else {
        step := Exit(w);
        s' := s.(nextIndex := if job.eager then s.nextIndex + 1 else s.nextIndex, workers := s.workers[w := Exited]);
      }
      assert Next(job, s, s', step);
      assert Moves(job, s, s');
    }
  }
}
