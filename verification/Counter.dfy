/**
  The shared counter of homework07_threads: every thread increments one variable, each increment a
  load and a store, with or without the mutex around them.
 */
module Counter {
  import opened Sums

  /** iterations is TARGET_VAL / THREAD_NUM; mutex tells whether MUTEX is defined. */
  datatype Config = Config(iterations: nat, mutex: bool)

  /** Where a thread stands in the loop body. */
  datatype Phase = Ready | Locked | Loaded(value: nat) | Stored

  /** done counts the thread's stores. */
  datatype Thread = Thread(done: nat, phase: Phase)

  /** holder is the thread inside the mutex, or -1. */
  datatype World = World(globalVar: nat, holder: int, threads: seq<Thread>)

  function Init(threadNum: nat): World {
    World(0, -1, seq(threadNum, i => Thread(0, Ready)))
  }

  /** One atomic step of thread t; a blocked or finished thread stays where it is. */
  function Step(cfg: Config, w: World, t: nat): World {
    if t >= |w.threads| then w
    else
      var th := w.threads[t];
      match th.phase
      case Ready =>
        if th.done >= cfg.iterations then w
        else if !cfg.mutex then w.(threads := w.threads[t := th.(phase := Loaded(w.globalVar))])
        else if w.holder != -1 then w
        else w.(holder := t, threads := w.threads[t := th.(phase := Locked)])
      case Locked =>
        w.(threads := w.threads[t := th.(phase := Loaded(w.globalVar))])
      case Loaded(v) =>
        w.(globalVar := v + 1, threads := w.threads[t := Thread(th.done + 1, if cfg.mutex then Stored else Ready)])
      case Stored =>
        w.(holder := -1, threads := w.threads[t := th.(phase := Ready)])
  }

  function Run(cfg: Config, w: World, schedule: seq<nat>): World
    decreases |schedule|
  {
    if schedule == [] then w else Run(cfg, Step(cfg, w, schedule[0]), schedule[1..])
  }

  lemma {:induction false} RunConcat(cfg: Config, w: World, a: seq<nat>, b: seq<nat>)
    ensures Run(cfg, w, a + b) == Run(cfg, Run(cfg, w, a), b)
    decreases |a|
  {
    if a == [] {
      assert a + b == b;
    } else {
      assert (a + b)[1..] == a[1..] + b;
      RunConcat(cfg, Step(cfg, w, a[0]), a[1..], b);
    }
  }

  /** What the joins in `first_task` wait for. */
  ghost predicate Finished(cfg: Config, w: World) {
    forall t :: 0 <= t < |w.threads| ==> w.threads[t] == Thread(cfg.iterations, Ready)
  }

  function Done(th: Thread): int { th.done }

  lemma FinishedTotal(cfg: Config, w: World)
    requires forall t :: 0 <= t < |w.threads| ==> w.threads[t].done == cfg.iterations
    ensures Total(w.threads, Done) == cfg.iterations * |w.threads|
  {
    TotalWithin(w.threads, Done, cfg.iterations, cfg.iterations);
  }

  lemma InitTotal(threadNum: nat)
    ensures Total(Init(threadNum).threads, Done) == 0
  {
    TotalWithin(Init(threadNum).threads, Done, 0, 0);
  }

  // ----- With the mutex -----

  ghost predicate LockedInv(cfg: Config, w: World) {
    && w.globalVar == Total(w.threads, Done)
    && forall t :: 0 <= t < |w.threads| ==>
         var th := w.threads[t];
         && (th.phase != Ready ==> w.holder == t)
         && (th.phase.Loaded? ==> th.phase.value == w.globalVar)
  }

  lemma LockedStep(cfg: Config, w: World, t: nat)
    requires cfg.mutex && LockedInv(cfg, w)
    ensures LockedInv(cfg, Step(cfg, w, t))
  {
    if t < |w.threads| {
      var w' := Step(cfg, w, t);
      if w' != w { TotalUpdate(w.threads, t, w'.threads[t], Done); }
    }
  }

  lemma {:induction false} LockedRun(cfg: Config, w: World, schedule: seq<nat>)
    requires cfg.mutex && LockedInv(cfg, w)
    ensures LockedInv(cfg, Run(cfg, w, schedule))
    decreases |schedule|
  {
    if schedule != [] {
      LockedStep(cfg, w, schedule[0]);
      LockedRun(cfg, Step(cfg, w, schedule[0]), schedule[1..]);
    }
  }

  lemma {:induction false} ThreadCountKept(cfg: Config, w: World, schedule: seq<nat>)
    ensures |Run(cfg, w, schedule).threads| == |w.threads|
    decreases |schedule|
  {
    if schedule != [] { ThreadCountKept(cfg, Step(cfg, w, schedule[0]), schedule[1..]); }
  }

  /** With the mutex the count is exact, for every schedule and any number of threads. */
  lemma LockedCounterIsExact(threadNum: nat, targetVal: nat, schedule: seq<nat>)
    requires threadNum > 0
    ensures var cfg := Config(targetVal / threadNum, true);
            var w := Run(cfg, Init(threadNum), schedule);
            Finished(cfg, w) ==> w.globalVar == threadNum * (targetVal / threadNum) <= targetVal
  {
    var cfg := Config(targetVal / threadNum, true);
    var w := Run(cfg, Init(threadNum), schedule);
    InitTotal(threadNum);
    LockedRun(cfg, Init(threadNum), schedule);
    ThreadCountKept(cfg, Init(threadNum), schedule);
    if Finished(cfg, w) {
      FinishedTotal(cfg, w);
    }
  }

  // ----- Without the mutex -----

  ghost predicate AllStored(cfg: Config, w: World) {
    forall t :: 0 <= t < |w.threads| ==> w.threads[t].done == cfg.iterations
  }

  ghost predicate RacyInv(cfg: Config, w: World) {
    && w.globalVar <= Total(w.threads, Done)
    && (Total(w.threads, Done) > 0 ==> w.globalVar > 0)
    && (forall t :: 0 <= t < |w.threads| ==>
         var th := w.threads[t];
         && (th.phase == Ready || th.phase.Loaded?)
         && (th.phase.Loaded? ==> th.done < cfg.iterations && th.phase.value <= Total(w.threads, Done))
         && (th.phase.Loaded? && th.done > 0 ==> th.phase.value > 0))
    && (|w.threads| > 0 && AllStored(cfg, w) ==> w.globalVar >= 2)
  }

  lemma RacyStep(cfg: Config, w: World, t: nat)
    requires !cfg.mutex && cfg.iterations >= 2 && RacyInv(cfg, w)
    ensures RacyInv(cfg, Step(cfg, w, t))
  {
    var w' := Step(cfg, w, t);
    if w' != w {
      TotalUpdate(w.threads, t, w'.threads[t], Done);
      TotalAtLeast(w.threads, t, Done);
      if w.threads[t].phase == Ready {
        assert w'.threads[t].done < cfg.iterations;
      } else if AllStored(cfg, w') {
        assert w'.threads[t].done == cfg.iterations;
      }
    }
  }

  lemma {:induction false} RacyRun(cfg: Config, w: World, schedule: seq<nat>)
    requires !cfg.mutex && cfg.iterations >= 2 && RacyInv(cfg, w)
    ensures RacyInv(cfg, Run(cfg, w, schedule))
    decreases |schedule|
  {
    if schedule != [] {
      RacyStep(cfg, w, schedule[0]);
      RacyRun(cfg, Step(cfg, w, schedule[0]), schedule[1..]);
    }
  }

  /** Without the mutex the count ends between 2 and the target, whatever the schedule. */
  lemma RacyCounterIsBounded(threadNum: nat, iterations: nat, schedule: seq<nat>)
    requires threadNum > 0 && iterations >= 2
    ensures var cfg := Config(iterations, false);
            var w := Run(cfg, Init(threadNum), schedule);
            Finished(cfg, w) ==> 2 <= w.globalVar <= threadNum * iterations
  {
    var cfg := Config(iterations, false);
    var w := Run(cfg, Init(threadNum), schedule);
    InitTotal(threadNum);
    assert Init(threadNum).threads[0].done == 0;
    RacyRun(cfg, Init(threadNum), schedule);
    ThreadCountKept(cfg, Init(threadNum), schedule);
    if Finished(cfg, w) {
      assert AllStored(cfg, w);
      FinishedTotal(cfg, w);
    }
  }

  // ----- Both bounds are reached -----

  /** Thread t alone, k iterations. */
  function Alone(t: nat, k: nat): seq<nat> { if k == 0 then [] else [t, t] + Alone(t, k - 1) }

  lemma {:induction false} RunAlone(cfg: Config, w: World, t: nat, k: nat)
    requires !cfg.mutex && t < |w.threads|
    requires w.threads[t].phase == Ready && w.threads[t].done + k <= cfg.iterations
    ensures Run(cfg, w, Alone(t, k)) ==
            World(w.globalVar + k, w.holder, w.threads[t := Thread(w.threads[t].done + k, Ready)])
    decreases k
  {
    if k > 0 {
      var w1 := Step(cfg, w, t);
      var w2 := Step(cfg, w1, t);
      assert w2 == World(w.globalVar + 1, w.holder, w.threads[t := Thread(w.threads[t].done + 1, Ready)]);
      assert Alone(t, k)[1..] == [t] + Alone(t, k - 1) && Alone(t, k)[1..][1..] == Alone(t, k - 1);
      RunAlone(cfg, w2, t, k - 1);
    }
  }

  /** Threads from..|threads|-1 one after the other, start to end. */
  function InTurn(from: nat, threadNum: nat, k: nat): seq<nat>
    decreases threadNum - from
  {
    if from >= threadNum then [] else Alone(from, k) + InTurn(from + 1, threadNum, k)
  }

  lemma {:induction false} RunInTurn(cfg: Config, w: World, from: nat)
    requires !cfg.mutex && from <= |w.threads|
    requires forall t :: from <= t < |w.threads| ==> w.threads[t] == Thread(0, Ready)
    ensures var w' := Run(cfg, w, InTurn(from, |w.threads|, cfg.iterations));
            && |w'.threads| == |w.threads| && w'.threads[..from] == w.threads[..from]
            && (forall t :: from <= t < |w.threads| ==> w'.threads[t] == Thread(cfg.iterations, Ready))
            && w'.globalVar == w.globalVar + (|w.threads| - from) * cfg.iterations
    decreases |w.threads| - from
  {
    var n := cfg.iterations;
    if from < |w.threads| {
      RunAlone(cfg, w, from, n);
      var w1 := Run(cfg, w, Alone(from, n));
      RunInTurn(cfg, w1, from + 1);
      RunConcat(cfg, w, Alone(from, n), InTurn(from + 1, |w.threads|, n));
      var w' := Run(cfg, w1, InTurn(from + 1, |w.threads|, n));
      assert w'.threads[from] == w'.threads[..from + 1][from] == w1.threads[..from + 1][from];
      assert w'.threads[..from] == w'.threads[..from + 1][..from] == w1.threads[..from + 1][..from] == w.threads[..from];
      assert (|w.threads| - from) * n == (|w.threads| - (from + 1)) * n + n;
    }
  }

  /** Running the threads one after the other reaches the upper bound. */
  lemma UpperBoundReached(threadNum: nat, iterations: nat)
    ensures var cfg := Config(iterations, false);
            var w := Run(cfg, Init(threadNum), InTurn(0, threadNum, iterations));
            Finished(cfg, w) && w.globalVar == threadNum * iterations
  {
    RunInTurn(Config(iterations, false), Init(threadNum), 0);
  }

  /** Thread 0 loads 0 and stalls while thread 1 does all but one iteration and the others finish; its
      store sets the count back to 1, which thread 1 loads for its last store, after thread 0 is done. */
  function WorstSchedule(threadNum: nat, n: nat): seq<nat>
    requires n > 0
  {
    [0] + (Alone(1, n - 1) + (InTurn(2, threadNum, n) + ([0, 1] + (Alone(0, n - 1) + [1]))))
  }

  /** Two threads and two iterations suffice to lose everything but 2. */
  lemma LowerBoundReached(threadNum: nat, n: nat)
    requires threadNum >= 2 && n >= 2
    ensures var cfg := Config(n, false);
            var w := Run(cfg, Init(threadNum), WorstSchedule(threadNum, n));
            Finished(cfg, w) && w.globalVar == 2
  {
    var cfg := Config(n, false);
    var w0 := Init(threadNum);
    var w1 := Step(cfg, w0, 0);
    assert w1.threads[0] == Thread(0, Loaded(0));
    RunAlone(cfg, w1, 1, n - 1);
    var w2 := Run(cfg, w1, Alone(1, n - 1));
    RunInTurn(cfg, w2, 2);
    var w3 := Run(cfg, w2, InTurn(2, threadNum, n));
    assert w3.threads[0] == w3.threads[..2][0] == w2.threads[0];
    assert w3.threads[1] == w3.threads[..2][1] == w2.threads[1];
    var w4 := Step(cfg, Step(cfg, w3, 0), 1);
    assert w4.globalVar == 1 && w4.threads[0] == Thread(1, Ready) && w4.threads[1] == Thread(n - 1, Loaded(1));
    RunAlone(cfg, w4, 0, n - 1);
    var w5 := Run(cfg, w4, Alone(0, n - 1));
    var w6 := Step(cfg, w5, 1);
    assert w6.globalVar == 2 && Finished(cfg, w6);

    var s5 := Alone(0, n - 1) + [1];
    var s4 := [0, 1] + s5;
    var s3 := InTurn(2, threadNum, n) + s4;
    var s2 := Alone(1, n - 1) + s3;
    RunConcat(cfg, w0, [0], s2);
    RunConcat(cfg, w1, Alone(1, n - 1), s3);
    RunConcat(cfg, w2, InTurn(2, threadNum, n), s4);
    RunConcat(cfg, w3, [0, 1], s5);
    RunConcat(cfg, w4, Alone(0, n - 1), [1]);
    RunOne(cfg, w0, 0);
    RunOne(cfg, w5, 1);
    RunConcat(cfg, w3, [0], [1]);
    assert [0] + [1] == [0, 1];
    RunOne(cfg, w3, 0);
    RunOne(cfg, Step(cfg, w3, 0), 1);
  }

  lemma RunOne(cfg: Config, w: World, t: nat)
    ensures Run(cfg, w, [t]) == Step(cfg, w, t)
  {
    assert [t][1..] == [];
  }

  // ----- Every schedule gets there -----

  /** A thread inside an iteration has it still to do, and with the mutex it is the holder. */
  predicate ThreadOrderly(cfg: Config, w: World, t: nat)
    requires t < |w.threads|
  {
    var th := w.threads[t];
    && th.done <= cfg.iterations
    && (th.phase == Locked || th.phase.Loaded? ==> th.done < cfg.iterations)
    && (if cfg.mutex then th.phase != Ready ==> w.holder == t else th.phase == Ready || th.phase.Loaded?)
  }

  predicate HolderInside(cfg: Config, w: World) {
    w.holder != -1 ==> cfg.mutex && 0 <= w.holder < |w.threads| && w.threads[w.holder].phase != Ready
  }

  ghost predicate Orderly(cfg: Config, w: World) {
    HolderInside(cfg, w) && forall t :: 0 <= t < |w.threads| ==> ThreadOrderly(cfg, w, t)
  }

  lemma OrderlyStep(cfg: Config, w: World, t: nat)
    requires Orderly(cfg, w)
    ensures Orderly(cfg, Step(cfg, w, t))
  {
    var w' := Step(cfg, w, t);
    forall k | 0 <= k < |w'.threads|
      ensures ThreadOrderly(cfg, w', k)
    {
      assert ThreadOrderly(cfg, w, k) && ThreadOrderly(cfg, w, if t < |w.threads| then t else k);
    }
  }

  lemma {:induction false} OrderlyRun(cfg: Config, w: World, schedule: seq<nat>)
    requires Orderly(cfg, w)
    ensures Orderly(cfg, Run(cfg, w, schedule))
    decreases |schedule|
  {
    if schedule != [] {
      OrderlyStep(cfg, w, schedule[0]);
      OrderlyRun(cfg, Step(cfg, w, schedule[0]), schedule[1..]);
    }
  }

  /** The steps of one iteration: lock, load, store, unlock, or only load and store. */
  function StepsEach(cfg: Config): nat { if cfg.mutex then 4 else 2 }

  /** The steps that a thread has still to take. */
  function StepsLeft(cfg: Config, th: Thread): int {
    (if cfg.mutex then 4 * (cfg.iterations - th.done) else 2 * (cfg.iterations - th.done))
    + match th.phase
      case Ready => 0
      case Locked => -1
      case Loaded(_) => if cfg.mutex then -2 else -1
      case Stored => 1
  }

  function Left(cfg: Config): Thread -> int { th => StepsLeft(cfg, th) }

  /** A step is one of those that were left. */
  lemma OneStepLess(cfg: Config, w: World, t: nat)
    requires Orderly(cfg, w) && Step(cfg, w, t) != w
    ensures Total(Step(cfg, w, t).threads, Left(cfg)) == Total(w.threads, Left(cfg)) - 1
  {
    assert ThreadOrderly(cfg, w, t);
    TotalUpdate(w.threads, t, Step(cfg, w, t).threads[t], Left(cfg));
  }

  lemma LeftNonNegative(cfg: Config, w: World)
    requires Orderly(cfg, w)
    ensures Total(w.threads, Left(cfg)) >= 0
  {
    forall th | th in w.threads
      ensures Left(cfg)(th) >= 0
    {
      var t :| 0 <= t < |w.threads| && w.threads[t] == th;
      assert ThreadOrderly(cfg, w, t);
    }
    TotalNonNegative(w.threads, Left(cfg));
  }

  /** While not all threads are done, one of them can take a step. */
  lemma Mover(cfg: Config, w: World) returns (t: nat)
    requires Orderly(cfg, w) && !Finished(cfg, w)
    ensures Step(cfg, w, t) != w
  {
    if w.holder != -1 {
      t := w.holder;
      assert ThreadOrderly(cfg, w, t) && Step(cfg, w, t).threads[t] != w.threads[t];
    } else {
      t :| 0 <= t < |w.threads| && w.threads[t] != Thread(cfg.iterations, Ready);
      assert ThreadOrderly(cfg, w, t) && Step(cfg, w, t).threads[t] != w.threads[t];
    }
  }

  lemma InitOrderly(cfg: Config, threadNum: nat)
    ensures Orderly(cfg, Init(threadNum))
  {
    forall t | 0 <= t < threadNum
      ensures ThreadOrderly(cfg, Init(threadNum), t)
    {
    }
  }

  /** With the mutex or without: the reachable worlds in which no thread can step are exactly the finished
      ones. */
  lemma StuckExactlyWhenFinished(cfg: Config, threadNum: nat, schedule: seq<nat>)
    ensures var w := Run(cfg, Init(threadNum), schedule);
            (forall t :: Step(cfg, w, t) == w) <==> Finished(cfg, w)
  {
    var w := Run(cfg, Init(threadNum), schedule);
    InitOrderly(cfg, threadNum);
    OrderlyRun(cfg, Init(threadNum), schedule);
    if !Finished(cfg, w) {
      var t := Mover(cfg, w);
    }
  }

  lemma {:induction false} FinishFrom(cfg: Config, w: World) returns (more: seq<nat>)
    requires Orderly(cfg, w)
    ensures Finished(cfg, Run(cfg, w, more))
    decreases Total(w.threads, Left(cfg))
  {
    LeftNonNegative(cfg, w);
    if Finished(cfg, w) {
      more := [];
    } else {
      var t := Mover(cfg, w);
      OneStepLess(cfg, w, t);
      OrderlyStep(cfg, w, t);
      LeftNonNegative(cfg, Step(cfg, w, t));
      var rest := FinishFrom(cfg, Step(cfg, w, t));
      more := [t] + rest;
      assert more[1..] == rest;
    }
  }

  /** From every reachable world some schedule finishes, and with the mutex the count is then exact. */
  lemma AlwaysCanFinish(cfg: Config, threadNum: nat, schedule: seq<nat>) returns (more: seq<nat>)
    ensures var w := Run(cfg, Init(threadNum), schedule + more);
            Finished(cfg, w) && (cfg.mutex ==> w.globalVar == threadNum * cfg.iterations)
  {
    InitOrderly(cfg, threadNum);
    OrderlyRun(cfg, Init(threadNum), schedule);
    more := FinishFrom(cfg, Run(cfg, Init(threadNum), schedule));
    RunConcat(cfg, Init(threadNum), schedule, more);
    if cfg.mutex {
      InitTotal(threadNum);
      LockedRun(cfg, Init(threadNum), schedule + more);
      ThreadCountKept(cfg, Init(threadNum), schedule + more);
      FinishedTotal(cfg, Run(cfg, Init(threadNum), schedule + more));
    }
  }

  /** The steps of a schedule that were not spent on a blocked or finished thread. */
  function Effective(cfg: Config, w: World, schedule: seq<nat>): nat
    decreases |schedule|
  {
    if schedule == [] then 0
    else (if Step(cfg, w, schedule[0]) != w then 1 else 0) + Effective(cfg, Step(cfg, w, schedule[0]), schedule[1..])
  }

  lemma {:induction false} EffectiveCounts(cfg: Config, w: World, schedule: seq<nat>)
    requires Orderly(cfg, w)
    ensures Effective(cfg, w, schedule) + Total(Run(cfg, w, schedule).threads, Left(cfg)) == Total(w.threads, Left(cfg))
    decreases |schedule|
  {
    if schedule != [] {
      var w' := Step(cfg, w, schedule[0]);
      if w' != w { OneStepLess(cfg, w, schedule[0]); }
      OrderlyStep(cfg, w, schedule[0]);
      EffectiveCounts(cfg, w', schedule[1..]);
    }
  }

  lemma NothingLeftExactly(cfg: Config, w: World)
    requires Orderly(cfg, w)
    ensures Total(w.threads, Left(cfg)) == 0 <==> Finished(cfg, w)
  {
    LeftNonNegative(cfg, w);
    if Finished(cfg, w) {
      TotalWithin(w.threads, Left(cfg), 0, 0);
    } else {
      var t := Mover(cfg, w);
      OneStepLess(cfg, w, t);
      OrderlyStep(cfg, w, t);
      LeftNonNegative(cfg, Step(cfg, w, t));
    }
  }

  /** Every schedule finishes exactly when it has taken the steps of all the iterations: no thread can be
      kept from its end other than by not being scheduled. */
  lemma FinishedExactlyAfter(cfg: Config, threadNum: nat, schedule: seq<nat>)
    ensures Effective(cfg, Init(threadNum), schedule) <= StepsEach(cfg) * cfg.iterations * threadNum
    ensures Finished(cfg, Run(cfg, Init(threadNum), schedule))
        <==> Effective(cfg, Init(threadNum), schedule) == StepsEach(cfg) * cfg.iterations * threadNum
  {
    var w0 := Init(threadNum);
    var each := StepsEach(cfg) * cfg.iterations;
    InitOrderly(cfg, threadNum);
    OrderlyRun(cfg, w0, schedule);
    EffectiveCounts(cfg, w0, schedule);
    TotalWithin(w0.threads, Left(cfg), each, each);
    LeftNonNegative(cfg, Run(cfg, w0, schedule));
    NothingLeftExactly(cfg, Run(cfg, w0, schedule));
  }

  // ----- The program -----

  /** The variable, the mutex and the threads, advanced one atomic step at a time by a scheduler. */
  class Process {
    const cfg: Config
    var globalVar: nat
    var holder: int
    var threads: seq<Thread>

    ghost function State(): World
      reads this
    {
      World(globalVar, holder, threads)
    }

    constructor (threadNum: nat, targetVal: nat, mutex: bool)
      requires threadNum > 0
      ensures cfg == Config(targetVal / threadNum, mutex) && State() == Init(threadNum) && LockedInv(cfg, State())
    {
      InitTotal(threadNum);
      cfg := Config(targetVal / threadNum, mutex);
      globalVar, holder := 0, -1;
      threads := seq(threadNum, i => Thread(0, Ready));
    }

    method Advance(t: nat)
      modifies this
      ensures State() == Step(cfg, old(State()), t)
    {
      if t >= |threads| { return; }
      var done := threads[t].done;
      match threads[t].phase {
        case Ready =>
          if done < cfg.iterations {
            if !cfg.mutex {
              threads := threads[t := Thread(done, Loaded(globalVar))];
            } else if holder == -1 {
              holder := t;
              threads := threads[t := Thread(done, Locked)];
            }
          }
        case Locked =>
          threads := threads[t := Thread(done, Loaded(globalVar))];
        case Loaded(value) =>
          globalVar := value + 1;
          threads := threads[t := Thread(done + 1, if cfg.mutex then Stored else Ready)];
        case Stored =>
          holder := -1;
          threads := threads[t := Thread(done, Ready)];
      }
    }

    /** With the mutex the variable counts the stores, whatever the schedule. */
    method Execute(schedule: seq<nat>)
      modifies this
      ensures State() == Run(cfg, old(State()), schedule)
      ensures cfg.mutex && LockedInv(cfg, old(State())) ==> globalVar == Total(threads, Done)
    {
      for i := 0 to |schedule|
        invariant Run(cfg, State(), schedule[i..]) == Run(cfg, old(State()), schedule)
      {
        Advance(schedule[i]);
      }
      if cfg.mutex {
        ghost var before := old(State());
        if LockedInv(cfg, before) { LockedRun(cfg, before, schedule); }
      }
    }
  }
}
