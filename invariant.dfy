/**
 * The invariant of the dispatch loop of src/comparison.c, on the state
 * machine of module Simulation, and the proof that every phase of a tick
 * keeps it. `Core` holds between any two phases of a tick; `Inv` adds what
 * only holds once a tick is over.
 */
module Invariants {
  import opened Processes
  import opened Queues
  import opened Simulation

  /** The indices 0 .. m-1 in order. */
  function Range(m: nat): (r: seq<nat>)
    ensures |r| == m && forall k :: 0 <= k < m ==> r[k] == k
  {
    seq(m, k requires 0 <= k => k as nat)
  }

  /** Every admitted job is dispatched or queued, and in one place only. */
  ghost predicate Shape(ps: seq<Process>, s: State) {
    var w, f := s.waiting, s.finished;
    && Indexed(ps, s)
    && s.placeholderLeft < 0
    && (forall k :: 0 <= k < |w| ==> w[k] < s.currentJob)
    && (forall k :: 0 <= k < |f| ==> f[k] < s.currentJob)
    && (!s.cpuFree ==> s.inCPU < s.currentJob)
    && (s.cpuFree && 0 <= s.inCPU ==> s.inCPU as nat in f)
    && (forall a, b :: 0 <= a < b < |w| ==> w[a] != w[b])
    && (forall a, b :: 0 <= a < b < |f| ==> f[a] != f[b])
    && (forall a, k :: 0 <= a < |f| && 0 <= k < |w| ==> f[a] != w[k])
    && (!s.cpuFree ==> s.inCPU as nat !in w && s.inCPU as nat !in f)
    && (forall i :: 0 <= i < s.currentJob ==> i in w || i in f || (!s.cpuFree && i == s.inCPU))
    && |Admitted(s)| == s.currentJob
  }

  /** A queued job's time left, and the time it has waited so far. */
  ghost predicate QueuedTime(policy: Policy, ps: seq<Process>, tl0: seq<int>, s: State, j: nat)
    requires j < |ps| && |s.timeleft| == |ps| == |tl0|
  {
    && (policy == RoundRobin ==> 1 <= s.timeleft[j] <= ps[j].service)
    && (NonPreemptive(policy, ps) ==> s.timeleft[j] == tl0[j])
    && ps[j].service - Due(ps, s.timeleft, j) <= s.clock - ps[j].arrival
  }

  /** Time left per job, by the job's state. */
  ghost predicate Times(policy: Policy, ps: seq<Process>, tl0: seq<int>, s: State)
    requires Indexed(ps, s) && |tl0| == |ps|
  {
    && (forall i :: s.currentJob <= i < |ps| ==> s.timeleft[i] == tl0[i])
    && (forall k :: 0 <= k < |s.waiting| ==> QueuedTime(policy, ps, tl0, s, s.waiting[k]))
    && (!s.cpuFree ==>
          && 1 <= s.timeleft[s.inCPU] <= ps[s.inCPU].service
          && ps[s.inCPU].service - s.timeleft[s.inCPU] <= s.clock - ps[s.inCPU].arrival)
    && (forall k :: 0 <= k < |s.finished| ==> s.finished[k] < |ps| && s.timeleft[s.finished[k]] <= 0)
  }

  /** The records: one per finished job, in completion order, none with a negative wait. */
  ghost predicate Log(ps: seq<Process>, s: State)
    requires forall k :: 0 <= k < |s.finished| ==> s.finished[k] < |ps|
  {
    && |s.records| == |s.finished|
    && (forall k :: 0 <= k < |s.records| ==>
          s.records[k] == RecordOf(ps[s.finished[k]], s.records[k].completion))
    && (forall k :: 0 <= k < |s.records| ==>
          ps[s.finished[k]].arrival + ps[s.finished[k]].service <= s.records[k].completion <= s.clock)
    && (forall a, b :: 0 <= a < b < |s.records| ==> s.records[a].completion < s.records[b].completion)
  }

  /** Jobs are admitted at their arrival, and the clock stays within the work still to do. */
  ghost predicate Clocked(ps: seq<Process>, s: State)
    requires Indexed(ps, s)
  {
    && -1 <= s.clock
    && (forall i :: 0 <= i < s.currentJob ==> ps[i].arrival <= s.clock)
    && (s.currentJob < |ps| ==> s.clock <= ps[s.currentJob].arrival)
    && s.clock + Outstanding(ps, s.timeleft, s.finished, |ps|) <= MaxArrival(ps) + TotalService(ps)
    && (s.clock < 0 ==> Outstanding(ps, s.timeleft, s.finished, |ps|) == TotalService(ps))
  }

  /** Dispatch ticks; without preemption a job completes exactly `service` ticks after it starts. */
  ghost predicate Timing(policy: Policy, ps: seq<Process>, s: State)
    requires Indexed(ps, s) && forall k :: 0 <= k < |s.finished| ==> s.finished[k] < |ps|
  {
    var d := Dispatched(s);
    && (forall a :: 0 <= a < |d| ==> ps[d[a]].arrival <= s.started[d[a]] <= s.clock)
    && (NonPreemptive(policy, ps) ==>
          && (!s.cpuFree ==> s.started[s.inCPU] + ps[s.inCPU].service == s.clock + s.timeleft[s.inCPU])
          && (forall k :: 0 <= k < |s.records| && k < |s.finished| ==>
                s.records[k].completion == s.started[s.finished[k]] + ps[s.finished[k]].service)
          && (forall a, b :: 0 <= a < |s.records| && a < b < |d| ==>
                s.records[a].completion <= s.started[d[b]]))
  }

  /** Round robin: the quantum counts down from the running job's dispatch. */
  ghost predicate Quantum(policy: Policy, ps: seq<Process>, s: State)
    requires Indexed(ps, s)
  {
    policy == RoundRobin && !s.cpuFree ==>
      && 0 <= s.quantum && s.quantum + s.clock == MAX_QUANTUM + s.started[s.inCPU]
      && s.timeleft[s.inCPU] + MAX_QUANTUM <= s.quantum + ps[s.inCPU].service
  }

  /** `i` was rightly chosen over `j`: `j` is not to be served first, and on a tie `i` came first. */
  predicate Chosen(key: Key, ps: seq<Process>, i: nat, j: nat)
    requires i < |ps| && j < |ps|
  {
    !Precedes(key, ps[j], ps[i]) && (SameKey(key, ps[i], ps[j]) ==> i < j)
  }

  /**
   * The ordered policies: the queue is sorted, earliest admitted first on
   * ties, and every dispatched job was the right choice over every job
   * that had arrived by its dispatch and went later.
   */
  ghost predicate Ordered(policy: Policy, ps: seq<Process>, s: State)
    requires Indexed(ps, s) && forall k :: 0 <= k < |s.finished| ==> s.finished[k] < |ps|
  {
    policy != RoundRobin ==>
      var key, d, w := KeyOf(policy), Dispatched(s), s.waiting;
      && Sorted(key, Jobs(ps, w))
      && (forall a, b :: 0 <= a < b < |w| && SameKey(key, ps[w[a]], ps[w[b]]) ==> w[a] < w[b])
      && (forall a, b :: 0 <= a < b < |d| && ps[d[b]].arrival <= s.started[d[a]] ==>
            Chosen(key, ps, d[a], d[b]))
      && (forall a, k :: 0 <= a < |d| && 0 <= k < |w| && ps[w[k]].arrival <= s.started[d[a]] ==>
            Chosen(key, ps, d[a], w[k]))
  }

  /** Round robin where no job needs two quanta: jobs run and finish in index order. */
  ghost predicate Fifo(policy: Policy, ps: seq<Process>, s: State) {
    policy == RoundRobin && AllShort(ps) ==> Admitted(s) == Range(s.currentJob)
  }

  ghost predicate Core(policy: Policy, ps: seq<Process>, tl0: seq<int>, s: State) {
    && Workload(policy, ps, tl0)
    && Shape(ps, s)
    && Times(policy, ps, tl0, s)
    && Log(ps, s)
    && Clocked(ps, s)
    && Timing(policy, ps, s)
    && Quantum(policy, ps, s)
    && Ordered(policy, ps, s)
    && Fifo(policy, ps, s)
  }

  ghost predicate Inv(policy: Policy, ps: seq<Process>, tl0: seq<int>, s: State) {
    && Core(policy, ps, tl0, s)
    && (s.currentJob < |ps| ==> s.clock < ps[s.currentJob].arrival)
    && (s.cpuFree ==> s.waiting == [])
    && (policy == RoundRobin && !s.cpuFree ==> 1 <= s.quantum)
  }

  /** The loop goes on: the first tick, or one after a tick that did not stop it. */
  predicate Live(ps: seq<Process>, s: State) {
    s.clock < 0 || !Halted(ps, s)
  }

  /** Each of the end-of-tick phases only runs on a state where nothing dispatched started at the current tick. */
  ghost predicate BeforeNow(policy: Policy, ps: seq<Process>, s: State)
    requires Shape(ps, s)
  {
    policy != RoundRobin ==>
      forall a :: 0 <= a < |Dispatched(s)| ==> s.started[Dispatched(s)[a]] < s.clock
  }

  // ---------------------------------------------------------------------
  // Helper lemmas.

  /** Changing one job's remaining time by `delta` changes the sum by `delta`. */
  lemma {:induction false} OutstandingChange(ps: seq<Process>, tl: seq<int>, f: seq<nat>, tl': seq<int>, f': seq<nat>,
                                             m: nat, x: nat, delta: int)
    requires m <= |ps| && m <= |tl| && m <= |tl'|
    requires forall i :: 0 <= i < m && i != x ==> Left(ps, tl', f', i) == Left(ps, tl, f, i)
    requires x < m ==> Left(ps, tl', f', x) == Left(ps, tl, f, x) + delta
    ensures Outstanding(ps, tl', f', m) == Outstanding(ps, tl, f, m) + (if x < m then delta else 0)
  {
    if m > 0 {
      OutstandingChange(ps, tl, f, tl', f', m - 1, x, delta);
    }
  }

  /** No job needs negative time, so neither do all of them. */
  lemma {:induction false} OutstandingNonNegative(ps: seq<Process>, tl: seq<int>, f: seq<nat>, m: nat)
    requires m <= |ps| && m <= |tl|
    requires forall i :: 0 <= i < |ps| ==> 1 <= ps[i].service
    ensures 0 <= Outstanding(ps, tl, f, m)
  {
    if m > 0 {
      OutstandingNonNegative(ps, tl, f, m - 1);
    }
  }

  /** No job needs more than its service, so neither do all of them. */
  lemma {:induction false} OutstandingAtMost(ps: seq<Process>, tl: seq<int>, f: seq<nat>, m: nat)
    requires m <= |ps| && m <= |tl|
    requires forall i :: 0 <= i < m ==> Left(ps, tl, f, i) <= ps[i].service
    ensures Outstanding(ps, tl, f, m) <= ServiceUpTo(ps, m)
  {
    if m > 0 {
      OutstandingAtMost(ps, tl, f, m - 1);
    }
  }

  /** Every job, whatever its state, needs at most its service. */
  lemma LeftAtMostService(policy: Policy, ps: seq<Process>, tl0: seq<int>, s: State)
    requires Workload(policy, ps, tl0) && Shape(ps, s) && Times(policy, ps, tl0, s)
    ensures forall i :: 0 <= i < |ps| ==> Left(ps, s.timeleft, s.finished, i) <= ps[i].service
  {
    forall i | 0 <= i < |ps|
      ensures Left(ps, s.timeleft, s.finished, i) <= ps[i].service
    {
      if i < s.currentJob && i !in s.finished {
        if i in s.waiting {
          var k :| 0 <= k < |s.waiting| && s.waiting[k] == i;
          assert QueuedTime(policy, ps, tl0, s, s.waiting[k]);
        }
      }
    }
  }

  /** Before the first tick every job still needs its whole service. */
  lemma {:induction false} OutstandingInit(policy: Policy, ps: seq<Process>, tl0: seq<int>, m: nat)
    requires Workload(policy, ps, tl0) && m <= |ps|
    ensures Outstanding(ps, tl0, [], m) == ServiceUpTo(ps, m)
  {
    if m > 0 {
      OutstandingInit(policy, ps, tl0, m - 1);
    }
  }

  // ---------------------------------------------------------------------
  // The invariant is kept, phase by phase.

  lemma InitInv(policy: Policy, ps: seq<Process>, tl0: seq<int>)
    requires Workload(policy, ps, tl0)
    ensures Inv(policy, ps, tl0, Init(ps, tl0)) && Live(ps, Init(ps, tl0))
  {
    var s := Init(ps, tl0);
    InitShape(policy, ps, tl0, s);
    InitClocked(policy, ps, tl0, s);
  }

  lemma InitShape(policy: Policy, ps: seq<Process>, tl0: seq<int>, s: State)
    requires Workload(policy, ps, tl0) && s == Init(ps, tl0)
    ensures Shape(ps, s) && Times(policy, ps, tl0, s) && Log(ps, s)
    ensures Timing(policy, ps, s) && Quantum(policy, ps, s) && Ordered(policy, ps, s) && Fifo(policy, ps, s)
  {
    assert Dispatched(s) == [];
  }

  lemma InitClocked(policy: Policy, ps: seq<Process>, tl0: seq<int>, s: State)
    requires Workload(policy, ps, tl0) && s == Init(ps, tl0)
    ensures Indexed(ps, s) && Clocked(ps, s)
  {
    OutstandingInit(policy, ps, tl0, |ps|);
  }

  // ---------------------------------------------------------------------
  // Frame lemmas: a part of the invariant that only reads fields a phase
  // leaves alone survives it.

  lemma LogFrame(ps: seq<Process>, s: State, t: State)
    requires forall k :: 0 <= k < |s.finished| ==> s.finished[k] < |ps|
    requires Log(ps, s)
    requires t.records == s.records && t.finished == s.finished && s.clock <= t.clock
    ensures Log(ps, t)
  {
  }

  lemma OrderedFrame(policy: Policy, ps: seq<Process>, s: State, t: State)
    requires Shape(ps, s) && Shape(ps, t) && Ordered(policy, ps, s)
    requires t.waiting == s.waiting && Dispatched(t) == Dispatched(s) && t.started == s.started
    ensures Ordered(policy, ps, t)
  {
  }

  lemma TimingFrame(policy: Policy, ps: seq<Process>, s: State, t: State)
    requires Shape(ps, s) && Shape(ps, t) && Timing(policy, ps, s)
    requires t.cpuFree == s.cpuFree && t.inCPU == s.inCPU && t.timeleft == s.timeleft
    requires t.started == s.started && t.records == s.records && t.finished == s.finished
    requires t.clock == s.clock
    ensures Timing(policy, ps, t)
  {
  }

  // ---------------------------------------------------------------------
  // Consume.

  lemma ConsumeShape(policy: Policy, ps: seq<Process>, s: State)
    requires Shape(ps, s)
    ensures Shape(ps, Consume(policy, ps, s))
  {
  }

  lemma ConsumeTimes(policy: Policy, ps: seq<Process>, tl0: seq<int>, s: State)
    requires Workload(policy, ps, tl0) && Shape(ps, s) && Times(policy, ps, tl0, s)
    ensures Shape(ps, Consume(policy, ps, s))
    ensures Times(policy, ps, tl0, Consume(policy, ps, s))
  {
    ConsumeShape(policy, ps, s);
    if s.inCPU < 0 {
      ConsumeTimesIdle(policy, ps, tl0, s, Consume(policy, ps, s));
    } else {
      ConsumeTimesBusy(policy, ps, tl0, s, Consume(policy, ps, s));
    }
  }

  lemma ConsumeTimesIdle(policy: Policy, ps: seq<Process>, tl0: seq<int>, s: State, t: State)
    requires Workload(policy, ps, tl0) && Shape(ps, s) && Times(policy, ps, tl0, s)
    requires s.inCPU < 0 && t == Consume(policy, ps, s)
    ensures t.timeleft == s.timeleft
    ensures Times(policy, ps, tl0, t)
  {
    assert t.timeleft == s.timeleft && t.finished == s.finished && t.cpuFree;
  }

  lemma ConsumeTimesBusy(policy: Policy, ps: seq<Process>, tl0: seq<int>, s: State, t: State)
    requires Workload(policy, ps, tl0) && Shape(ps, s) && Times(policy, ps, tl0, s)
    requires 0 <= s.inCPU && t == Consume(policy, ps, s)
    ensures t.timeleft == s.timeleft[s.inCPU := s.timeleft[s.inCPU] - 1]
    ensures Times(policy, ps, tl0, t)
  {
    assert t.timeleft == s.timeleft[s.inCPU := s.timeleft[s.inCPU] - 1];
    if s.cpuFree {
      assert s.timeleft[s.inCPU] <= 0;
    }
  }

  lemma ConsumeLog(policy: Policy, ps: seq<Process>, tl0: seq<int>, s: State)
    requires Workload(policy, ps, tl0) && Shape(ps, s) && Times(policy, ps, tl0, s) && Log(ps, s)
    ensures Shape(ps, Consume(policy, ps, s))
    ensures Log(ps, Consume(policy, ps, s))
  {
    ConsumeShape(policy, ps, s);
    if !s.cpuFree && s.timeleft[s.inCPU] == 1 {
      ConsumeLogDone(policy, ps, tl0, s);
    } else {
      if s.cpuFree && 0 <= s.inCPU {
        assert s.timeleft[s.inCPU] <= 0;
      }
      LogFrame(ps, s, Consume(policy, ps, s));
    }
  }

  lemma ConsumeLogDone(policy: Policy, ps: seq<Process>, tl0: seq<int>, s: State)
    requires Workload(policy, ps, tl0) && Shape(ps, s) && Times(policy, ps, tl0, s) && Log(ps, s)
    requires Shape(ps, Consume(policy, ps, s))
    requires !s.cpuFree && s.timeleft[s.inCPU] == 1
    ensures Log(ps, Consume(policy, ps, s))
  {
    var t := Consume(policy, ps, s);
    assert t.records == s.records + [RecordOf(ps[s.inCPU], t.clock)];
    assert t.finished == s.finished + [s.inCPU as nat];
  }

  lemma ConsumeClocked(policy: Policy, ps: seq<Process>, tl0: seq<int>, s: State)
    requires Workload(policy, ps, tl0) && Shape(ps, s) && Times(policy, ps, tl0, s) && Clocked(ps, s)
    requires s.currentJob < |ps| ==> s.clock < ps[s.currentJob].arrival
    requires s.cpuFree ==> s.waiting == []
    requires Live(ps, s)
    ensures Shape(ps, Consume(policy, ps, s))
    ensures Clocked(ps, Consume(policy, ps, s))
  {
    ConsumeShape(policy, ps, s);
    if s.cpuFree {
      ConsumeClockedIdle(policy, ps, tl0, s);
    } else {
      ConsumeClockedBusy(policy, ps, tl0, s);
    }
  }

  /** An idle tick: the clock only gets here while a job is still to arrive. */
  lemma ConsumeClockedIdle(policy: Policy, ps: seq<Process>, tl0: seq<int>, s: State)
    requires Workload(policy, ps, tl0) && Shape(ps, s) && Times(policy, ps, tl0, s) && Clocked(ps, s)
    requires s.currentJob < |ps| ==> s.clock < ps[s.currentJob].arrival
    requires s.cpuFree && s.waiting == [] && Live(ps, s)
    ensures Clocked(ps, Consume(policy, ps, s))
  {
    var t := Consume(policy, ps, s);
    if 0 <= s.inCPU {
      assert s.timeleft[s.inCPU] <= 0;
      assert t.finished == s.finished && t.timeleft == s.timeleft[s.inCPU := s.timeleft[s.inCPU] - 1];
    } else {
      assert t.finished == s.finished && t.timeleft == s.timeleft;
    }
    OutstandingChange(ps, s.timeleft, s.finished, t.timeleft, t.finished, |ps|, 0, 0);
    if 0 <= s.clock {
      assert s.currentJob < |ps|;
      LeftAtMostService(policy, ps, tl0, s);
      OutstandingAtMost(ps, s.timeleft, s.finished, |ps|);
    }
  }

  /** A busy tick uses one tick of the work still to do. */
  lemma ConsumeClockedBusy(policy: Policy, ps: seq<Process>, tl0: seq<int>, s: State)
    requires Workload(policy, ps, tl0) && Shape(ps, s) && Times(policy, ps, tl0, s) && Clocked(ps, s)
    requires s.currentJob < |ps| ==> s.clock < ps[s.currentJob].arrival
    requires !s.cpuFree
    ensures var t := Consume(policy, ps, s);
      Outstanding(ps, t.timeleft, t.finished, |ps|) == Outstanding(ps, s.timeleft, s.finished, |ps|) - 1
    ensures Clocked(ps, Consume(policy, ps, s))
  {
    var t := Consume(policy, ps, s);
    ConsumeBusyLeft(policy, ps, tl0, s, t);
    OutstandingChange(ps, s.timeleft, s.finished, t.timeleft, t.finished, |ps|, s.inCPU as nat, -1);
  }

  /** On a busy tick the running job needs one tick less and every other job as much as before. */
  lemma ConsumeBusyLeft(policy: Policy, ps: seq<Process>, tl0: seq<int>, s: State, t: State)
    requires Workload(policy, ps, tl0) && Shape(ps, s) && Times(policy, ps, tl0, s)
    requires !s.cpuFree && t == Consume(policy, ps, s)
    ensures forall i :: 0 <= i < |ps| && i != s.inCPU ==> Left(ps, t.timeleft, t.finished, i) == Left(ps, s.timeleft, s.finished, i)
    ensures Left(ps, t.timeleft, t.finished, s.inCPU as nat) == Left(ps, s.timeleft, s.finished, s.inCPU as nat) - 1
  {
    var x := s.inCPU as nat;
    assert t.timeleft == s.timeleft[x := s.timeleft[x] - 1];
    assert t.finished == s.finished || t.finished == s.finished + [x];
    assert x !in s.finished;
  }

  lemma ConsumeTiming(policy: Policy, ps: seq<Process>, tl0: seq<int>, s: State)
    requires Workload(policy, ps, tl0) && Shape(ps, s) && Times(policy, ps, tl0, s) && Log(ps, s)
    requires Timing(policy, ps, s)
    ensures Shape(ps, Consume(policy, ps, s))
    ensures Timing(policy, ps, Consume(policy, ps, s))
  {
    ConsumeShape(policy, ps, s);
    var t := Consume(policy, ps, s);
    if !s.cpuFree && s.timeleft[s.inCPU] == 1 {
      assert t.records == s.records + [RecordOf(ps[s.inCPU], t.clock)];
      assert t.finished == s.finished + [s.inCPU as nat];
    } else if s.cpuFree && 0 <= s.inCPU {
      assert s.timeleft[s.inCPU] <= 0;
    }
  }

  lemma ConsumeRest(policy: Policy, ps: seq<Process>, tl0: seq<int>, s: State)
    requires Shape(ps, s) && Timing(policy, ps, s) && Quantum(policy, ps, s) && Ordered(policy, ps, s)
    requires Fifo(policy, ps, s)
    requires policy == RoundRobin && !s.cpuFree ==> 1 <= s.quantum
    ensures Shape(ps, Consume(policy, ps, s))
    ensures Quantum(policy, ps, Consume(policy, ps, s))
    ensures Ordered(policy, ps, Consume(policy, ps, s))
    ensures Fifo(policy, ps, Consume(policy, ps, s))
    ensures BeforeNow(policy, ps, Consume(policy, ps, s))
  {
    ConsumeShape(policy, ps, s);
    OrderedFrame(policy, ps, s, Consume(policy, ps, s));
  }

  lemma ConsumeStep(policy: Policy, ps: seq<Process>, tl0: seq<int>, s: State)
    requires Inv(policy, ps, tl0, s) && Live(ps, s)
    ensures Core(policy, ps, tl0, Consume(policy, ps, s))
    ensures BeforeNow(policy, ps, Consume(policy, ps, s))
  {
    ConsumeTimes(policy, ps, tl0, s);
    ConsumeLog(policy, ps, tl0, s);
    ConsumeClocked(policy, ps, tl0, s);
    ConsumeTiming(policy, ps, tl0, s);
    ConsumeRest(policy, ps, tl0, s);
  }

  // ---------------------------------------------------------------------
  // Expire.

  /** Round robin only preempts a job that needs more than one quantum. */
  lemma ExpireNeedsLongJob(policy: Policy, ps: seq<Process>, tl0: seq<int>, s: State)
    requires Workload(policy, ps, tl0) && Shape(ps, s) && Times(policy, ps, tl0, s)
    requires Log(ps, s) && Timing(policy, ps, s) && Quantum(policy, ps, s)
    requires policy == RoundRobin && !s.cpuFree && s.quantum == 0
    ensures ps[s.inCPU].service > MAX_QUANTUM
    ensures !AllShort(ps)
  {
  }

  /** The state after a quantum expiry, spelled out. */
  lemma ExpireFires(policy: Policy, ps: seq<Process>, s: State)
    requires Shape(ps, s)
    requires policy == RoundRobin && !s.cpuFree && s.quantum == 0
    ensures var t := Expire(policy, ps, s);
      var x := s.inCPU as nat;
      && t == s.(waiting := t.waiting, inCPU := t.inCPU, quantum := MAX_QUANTUM, started := t.started)
      && (s.waiting == [] ==> t.inCPU == x && t.waiting == [])
      && (s.waiting != [] ==> t.inCPU == s.waiting[0] && t.waiting == s.waiting[1..] + [x])
      && t.started == s.started[t.inCPU := s.clock]
  {
    var queued := s.waiting + [s.inCPU as nat];
    if s.waiting != [] {
      assert queued[1..] == s.waiting[1..] + [s.inCPU as nat];
    }
  }

  /** Moving the running job `x` to the tail and the head onto the CPU loses and repeats no job. */
  lemma Rotate(w: seq<nat>, x: nat)
    requires w != [] && x !in w
    requires forall a, b :: 0 <= a < b < |w| ==> w[a] != w[b]
    ensures var w' := w[1..] + [x];
      && (forall a, b :: 0 <= a < b < |w'| ==> w'[a] != w'[b])
      && w[0] !in w'
      && (forall i :: i in w || i == x <==> i in w' || i == w[0])
  {
    var w' := w[1..] + [x];
    forall a, b | 0 <= a < b < |w'|
      ensures w'[a] != w'[b]
    {
      assert w'[a] == w[a + 1];
    }
    forall i | i in w
      ensures i in w' || i == w[0]
    {
      var k :| 0 <= k < |w| && w[k] == i;
      if k > 0 {
        assert w'[k - 1] == i;
      }
    }
  }

  lemma ExpireShape(policy: Policy, ps: seq<Process>, s: State)
    requires Shape(ps, s)
    requires policy == RoundRobin && !s.cpuFree && s.quantum == 0
    ensures Shape(ps, Expire(policy, ps, s))
  {
    ExpireFires(policy, ps, s);
    var t := Expire(policy, ps, s);
    if s.waiting == [] {
      assert Dispatched(t) == Dispatched(s);
    } else {
      RotateShape(ps, s, t);
    }
  }

  /** The running job to the tail and the head onto the CPU keeps the shape. */
  lemma RotateShape(ps: seq<Process>, s: State, t: State)
    requires Shape(ps, s) && !s.cpuFree && s.waiting != []
    requires t == s.(waiting := s.waiting[1..] + [s.inCPU as nat], inCPU := s.waiting[0],
                     quantum := t.quantum, started := t.started)
    requires |t.started| == |ps|
    ensures Shape(ps, t)
  {
    var w, x := s.waiting, s.inCPU as nat;
    Rotate(w, x);
    assert Dispatched(t) == s.finished + [w[0]];
    assert |Admitted(t)| == |Admitted(s)|;
  }

  lemma ExpireTimes(policy: Policy, ps: seq<Process>, tl0: seq<int>, s: State)
    requires Workload(policy, ps, tl0) && Shape(ps, s) && Times(policy, ps, tl0, s)
    requires policy == RoundRobin && !s.cpuFree && s.quantum == 0 && !AllShort(ps)
    ensures Shape(ps, Expire(policy, ps, s))
    ensures Times(policy, ps, tl0, Expire(policy, ps, s))
  {
    ExpireShape(policy, ps, s);
    ExpireFires(policy, ps, s);
    var t := Expire(policy, ps, s);
    if s.waiting != [] {
      RotateTimes(policy, ps, tl0, s, t);
    }
  }

  /** The running job to the tail and the head onto the CPU keeps the times. */
  lemma RotateTimes(policy: Policy, ps: seq<Process>, tl0: seq<int>, s: State, t: State)
    requires Workload(policy, ps, tl0) && Shape(ps, s) && Times(policy, ps, tl0, s)
    requires policy == RoundRobin && !s.cpuFree && s.waiting != [] && !AllShort(ps)
    requires t == s.(waiting := s.waiting[1..] + [s.inCPU as nat], inCPU := s.waiting[0],
                     quantum := t.quantum, started := t.started)
    requires |t.started| == |ps|
    ensures Times(policy, ps, tl0, t)
  {
    assert QueuedTime(policy, ps, tl0, s, s.waiting[0]);
    assert forall k :: 0 <= k < |t.waiting| - 1 ==> t.waiting[k] == s.waiting[k + 1];
  }

  lemma ExpireTiming(policy: Policy, ps: seq<Process>, tl0: seq<int>, s: State)
    requires Workload(policy, ps, tl0) && Shape(ps, s) && Times(policy, ps, tl0, s)
    requires Clocked(ps, s) && Timing(policy, ps, s)
    requires policy == RoundRobin && !s.cpuFree && s.quantum == 0 && !AllShort(ps)
    ensures Shape(ps, Expire(policy, ps, s))
    ensures Timing(policy, ps, Expire(policy, ps, s))
    ensures Quantum(policy, ps, Expire(policy, ps, s))
  {
    ExpireShape(policy, ps, s);
    ExpireFires(policy, ps, s);
    var t := Expire(policy, ps, s);
    var y := t.inCPU as nat;
    assert y < s.currentJob;
    assert y !in s.finished;
    assert Dispatched(t) == s.finished + [y];
    assert Dispatched(s) == s.finished + [s.inCPU as nat];
    forall a | 0 <= a < |s.finished|
      ensures ps[s.finished[a]].arrival <= t.started[s.finished[a]] <= t.clock
    {
      assert Dispatched(s)[a] == s.finished[a];
    }
    assert ps[y].arrival <= t.started[y] <= t.clock;
    if s.waiting != [] {
      assert QueuedTime(policy, ps, tl0, s, s.waiting[0]);
    }
  }

  lemma ExpireStep(policy: Policy, ps: seq<Process>, tl0: seq<int>, s: State)
    requires Core(policy, ps, tl0, s) && BeforeNow(policy, ps, s)
    ensures Core(policy, ps, tl0, Expire(policy, ps, s))
    ensures BeforeNow(policy, ps, Expire(policy, ps, s))
    ensures policy == RoundRobin && !Expire(policy, ps, s).cpuFree ==> 1 <= Expire(policy, ps, s).quantum
  {
    if policy == RoundRobin && !s.cpuFree && s.quantum == 0 {
      ExpireNeedsLongJob(policy, ps, tl0, s);
      ExpireTimes(policy, ps, tl0, s);
      ExpireTiming(policy, ps, tl0, s);
      ExpireFires(policy, ps, s);
      var t := Expire(policy, ps, s);
      LogFrame(ps, s, t);
    }
  }

  // ---------------------------------------------------------------------
  // Admit.

  /** Inserting a new index loses and repeats no job, and shifts the ones behind it. */
  lemma InsertFacts(w: seq<nat>, k: nat, j: nat)
    requires k <= |w| && j !in w
    requires forall a, b :: 0 <= a < b < |w| ==> w[a] != w[b]
    ensures var w' := w[..k] + [j] + w[k..];
      && |w'| == |w| + 1 && w'[k] == j
      && (forall m :: 0 <= m < k ==> w'[m] == w[m])
      && (forall m :: k < m < |w'| ==> w'[m] == w[m - 1])
      && (forall a, b :: 0 <= a < b < |w'| ==> w'[a] != w'[b])
      && (forall i :: i in w' <==> i in w || i == j)
  {
    var w' := w[..k] + [j] + w[k..];
    assert w == w[..k] + w[k..];
    forall a, b | 0 <= a < b < |w'|
      ensures w'[a] != w'[b]
    {
      if b < k {
        assert w'[a] == w[a] && w'[b] == w[b];
      } else if b > k && a > k {
        assert w'[a] == w[a - 1] && w'[b] == w[b - 1];
      } else if b > k && a < k {
        assert w'[a] == w[a] && w'[b] == w[b - 1];
      }
    }
  }

  /** Admitting job `currentJob` at position `k` of the queue keeps the shape. */
  lemma InsertShape(ps: seq<Process>, s: State, k: nat)
    requires Shape(ps, s) && s.currentJob < |ps| && k <= |s.waiting|
    ensures Shape(ps, s.(waiting := s.waiting[..k] + [s.currentJob] + s.waiting[k..],
                         currentJob := s.currentJob + 1))
  {
    var j, w, f := s.currentJob, s.waiting, s.finished;
    var w' := w[..k] + [j] + w[k..];
    var t := s.(waiting := w', currentJob := j + 1);
    InsertKeepsApart(w, f, k, j);
    assert forall i :: 0 <= i < j + 1 ==> i in w' || i in f || (!s.cpuFree && i == s.inCPU);
    assert Dispatched(t) == Dispatched(s);
    assert |Admitted(t)| == |Admitted(s)| + 1;
  }

  /** A fresh index inserted into a queue of older ones keeps it duplicate-free and apart from `f`. */
  lemma InsertKeepsApart(w: seq<nat>, f: seq<nat>, k: nat, j: nat)
    requires k <= |w|
    requires forall m :: 0 <= m < |w| ==> w[m] < j
    requires forall m :: 0 <= m < |f| ==> f[m] < j
    requires forall a, b :: 0 <= a < b < |w| ==> w[a] != w[b]
    requires forall a, m :: 0 <= a < |f| && 0 <= m < |w| ==> f[a] != w[m]
    ensures var w' := w[..k] + [j] + w[k..];
      && (forall m :: 0 <= m < |w'| ==> w'[m] < j + 1)
      && (forall a, b :: 0 <= a < b < |w'| ==> w'[a] != w'[b])
      && (forall a, m :: 0 <= a < |f| && 0 <= m < |w'| ==> f[a] != w'[m])
      && (forall i :: i in w' <==> i in w || i == j)
  {
    InsertFacts(w, k, j);
  }

  lemma EnqueueShape(policy: Policy, ps: seq<Process>, s: State)
    requires Shape(ps, s) && s.currentJob < |ps|
    ensures Shape(ps, Enqueue(policy, ps, s))
  {
    var k := Place(policy, ps, s.waiting, s.currentJob);
    InsertShape(ps, s, k);
    assert Enqueue(policy, ps, s) == s.(waiting := s.waiting[..k] + [s.currentJob] + s.waiting[k..],
                                        currentJob := s.currentJob + 1);
  }

  lemma EnqueueTimes(policy: Policy, ps: seq<Process>, tl0: seq<int>, s: State)
    requires Workload(policy, ps, tl0) && Shape(ps, s) && Times(policy, ps, tl0, s)
    requires s.currentJob < |ps| && ps[s.currentJob].arrival == s.clock
    ensures Shape(ps, Enqueue(policy, ps, s))
    ensures Times(policy, ps, tl0, Enqueue(policy, ps, s))
  {
    EnqueueShape(policy, ps, s);
    EnqueueQueued(policy, ps, tl0, s, Place(policy, ps, s.waiting, s.currentJob), Enqueue(policy, ps, s));
  }

  /** The queued jobs' times after admitting job `currentJob`. */
  lemma EnqueueQueued(policy: Policy, ps: seq<Process>, tl0: seq<int>, s: State, k: nat, t: State)
    requires Workload(policy, ps, tl0) && Indexed(ps, s) && Times(policy, ps, tl0, s)
    requires forall a, b :: 0 <= a < b < |s.waiting| ==> s.waiting[a] != s.waiting[b]
    requires forall m :: 0 <= m < |s.waiting| ==> s.waiting[m] < s.currentJob
    requires s.currentJob < |ps| && ps[s.currentJob].arrival == s.clock && k <= |s.waiting|
    requires t == s.(waiting := s.waiting[..k] + [s.currentJob] + s.waiting[k..], currentJob := s.currentJob + 1)
    ensures forall m :: 0 <= m < |t.waiting| ==> QueuedTime(policy, ps, tl0, t, t.waiting[m])
  {
    var j := s.currentJob;
    assert j !in s.waiting;
    InsertFacts(s.waiting, k, j);
    forall m | 0 <= m < |t.waiting|
      ensures QueuedTime(policy, ps, tl0, t, t.waiting[m])
    {
      if m < k {
        assert QueuedTime(policy, ps, tl0, s, s.waiting[m]);
      } else if k < m {
        assert QueuedTime(policy, ps, tl0, s, s.waiting[m - 1]);
      }
    }
  }

  lemma EnqueueClocked(policy: Policy, ps: seq<Process>, tl0: seq<int>, s: State)
    requires Workload(policy, ps, tl0) && Indexed(ps, s) && Clocked(ps, s)
    requires s.currentJob < |ps| && ps[s.currentJob].arrival == s.clock
    ensures Clocked(ps, Enqueue(policy, ps, s))
  {
  }

  lemma EnqueueOrdered(policy: Policy, ps: seq<Process>, s: State)
    requires Indexed(ps, s) && forall m :: 0 <= m < |s.finished| ==> s.finished[m] < |ps|
    requires Ordered(policy, ps, s) && policy != RoundRobin
    requires s.currentJob < |ps| && ps[s.currentJob].arrival == s.clock
    requires forall m :: 0 <= m < |s.waiting| ==> s.waiting[m] < s.currentJob
    requires forall a :: 0 <= a < |Dispatched(s)| ==> s.started[Dispatched(s)[a]] < s.clock
    ensures Ordered(policy, ps, Enqueue(policy, ps, s))
  {
    var j, w := s.currentJob, s.waiting;
    var k := Place(policy, ps, w, j);
    PlaceKeepsSorted(policy, ps, w, j);
    InsertOrdered(policy, ps, s, k);
    assert Enqueue(policy, ps, s) == s.(waiting := w[..k] + [j] + w[k..], currentJob := j + 1);
  }

  /** The slot an ordered policy picks keeps the queue sorted and goes behind every job with the key. */
  lemma PlaceKeepsSorted(policy: Policy, ps: seq<Process>, w: seq<nat>, j: nat)
    requires policy != RoundRobin && j < |ps| && forall m :: 0 <= m < |w| ==> w[m] < |ps|
    requires Sorted(KeyOf(policy), Jobs(ps, w))
    ensures var key, k := KeyOf(policy), Place(policy, ps, w, j);
      && (forall m :: 0 <= m < |w| && SameKey(key, Jobs(ps, w)[m], ps[j]) ==> m < k)
      && Sorted(key, Jobs(ps, w[..k] + [j] + w[k..]))
  {
    var key, js := KeyOf(policy), Jobs(ps, w);
    var k := Slot(key, js, ps[j]);
    assert k == Place(policy, ps, w, j);
    InsertKeepsSorted(key, js, ps[j]);
    InsertIsStable(key, js, ps[j]);
    JobsInsert(ps, w, k, j);
    assert Insert(key, js, ps[j]) == js[..k] + [ps[j]] + js[k..];
  }

  /** `Ordered` for job `currentJob` inserted at a slot `k` behind every job with its key. */
  lemma InsertOrdered(policy: Policy, ps: seq<Process>, s: State, k: nat)
    requires Indexed(ps, s) && forall m :: 0 <= m < |s.finished| ==> s.finished[m] < |ps|
    requires Ordered(policy, ps, s) && policy != RoundRobin
    requires s.currentJob < |ps| && ps[s.currentJob].arrival == s.clock && k <= |s.waiting|
    requires forall m :: 0 <= m < |s.waiting| ==> s.waiting[m] < s.currentJob
    requires forall a :: 0 <= a < |Dispatched(s)| ==> s.started[Dispatched(s)[a]] < s.clock
    requires var key := KeyOf(policy);
      && (forall m :: 0 <= m < |s.waiting| && SameKey(key, Jobs(ps, s.waiting)[m], ps[s.currentJob]) ==> m < k)
      && Sorted(key, Jobs(ps, s.waiting[..k] + [s.currentJob] + s.waiting[k..]))
    ensures Ordered(policy, ps, s.(waiting := s.waiting[..k] + [s.currentJob] + s.waiting[k..],
                                   currentJob := s.currentJob + 1))
  {
    var key, j, w := KeyOf(policy), s.currentJob, s.waiting;
    var t := s.(waiting := w[..k] + [j] + w[k..], currentJob := j + 1);
    assert Dispatched(t) == Dispatched(s);
    InsertTies(key, ps, w, k, j);
    InsertChoices(key, ps, Dispatched(s), s.started, s.clock, w, k, j);
  }

  /** Ties stay in index order when a job with a larger index goes behind every job with its key. */
  lemma InsertTies(key: Key, ps: seq<Process>, w: seq<nat>, k: nat, j: nat)
    requires j < |ps| && k <= |w| && forall m :: 0 <= m < |w| ==> w[m] < j
    requires forall a, b :: 0 <= a < b < |w| && SameKey(key, ps[w[a]], ps[w[b]]) ==> w[a] < w[b]
    requires forall m :: 0 <= m < |w| && SameKey(key, ps[w[m]], ps[j]) ==> m < k
    ensures var w' := w[..k] + [j] + w[k..];
      forall a, b :: 0 <= a < b < |w'| && SameKey(key, ps[w'[a]], ps[w'[b]]) ==> w'[a] < w'[b]
  {
    var w' := w[..k] + [j] + w[k..];
    forall a, b | 0 <= a < b < |w'|
      ensures SameKey(key, ps[w'[a]], ps[w'[b]]) ==> w'[a] < w'[b]
    {
      if a == k {
        assert w'[b] == w[b - 1] && !SameKey(key, ps[w[b - 1]], ps[j]);
      } else if b == k {
        assert w'[a] == w[a];
      } else {
        var a', b' := if a < k then a else a - 1, if b < k then b else b - 1;
        assert w'[a] == w[a'] && w'[b] == w[b'] && a' < b';
      }
    }
  }

  /** A job arriving now adds no choice to justify: every dispatch happened before it arrived. */
  lemma InsertChoices(key: Key, ps: seq<Process>, d: seq<nat>, started: seq<int>, clock: int,
                      w: seq<nat>, k: nat, j: nat)
    requires j < |ps| && k <= |w| && ps[j].arrival == clock
    requires forall m :: 0 <= m < |w| ==> w[m] < |ps|
    requires forall a :: 0 <= a < |d| ==> d[a] < |ps| && d[a] < |started| && started[d[a]] < clock
    requires forall a, m :: 0 <= a < |d| && 0 <= m < |w| && ps[w[m]].arrival <= started[d[a]] ==>
               Chosen(key, ps, d[a], w[m])
    ensures var w' := w[..k] + [j] + w[k..];
      forall a, m :: 0 <= a < |d| && 0 <= m < |w'| && ps[w'[m]].arrival <= started[d[a]] ==>
        Chosen(key, ps, d[a], w'[m])
  {
    var w' := w[..k] + [j] + w[k..];
    forall a, m | 0 <= a < |d| && 0 <= m < |w'| && ps[w'[m]].arrival <= started[d[a]]
      ensures Chosen(key, ps, d[a], w'[m])
    {
      if m != k {
        var m' := if m < k then m else m - 1;
        assert w'[m] == w[m'];
      }
    }
  }

  /** The parts of the invariant the queue does not enter into. */
  lemma EnqueueRest(policy: Policy, ps: seq<Process>, s: State)
    requires Shape(ps, s) && Timing(policy, ps, s) && Quantum(policy, ps, s)
    requires Fifo(policy, ps, s) && BeforeNow(policy, ps, s)
    requires s.currentJob < |ps|
    ensures Shape(ps, Enqueue(policy, ps, s))
    ensures Timing(policy, ps, Enqueue(policy, ps, s)) && Quantum(policy, ps, Enqueue(policy, ps, s))
    ensures Fifo(policy, ps, Enqueue(policy, ps, s)) && BeforeNow(policy, ps, Enqueue(policy, ps, s))
  {
    var t := Enqueue(policy, ps, s);
    EnqueueShape(policy, ps, s);
    TimingFrame(policy, ps, s, t);
    assert Dispatched(t) == Dispatched(s);
    EnqueueFifo(policy, ps, s, t);
  }

  /** Round robin appends job `currentJob`, so the admitted jobs stay `0 .. currentJob`. */
  lemma EnqueueFifo(policy: Policy, ps: seq<Process>, s: State, t: State)
    requires Indexed(ps, s) && Fifo(policy, ps, s) && s.currentJob < |ps|
    requires t == Enqueue(policy, ps, s)
    ensures Fifo(policy, ps, t)
  {
    if policy == RoundRobin && AllShort(ps) {
      assert Dispatched(t) == Dispatched(s);
      assert Admitted(t) == Admitted(s) + [s.currentJob];
    }
  }

  lemma EnqueueStep(policy: Policy, ps: seq<Process>, tl0: seq<int>, s: State)
    requires Core(policy, ps, tl0, s) && BeforeNow(policy, ps, s)
    requires s.currentJob < |ps| && ps[s.currentJob].arrival == s.clock
    ensures Core(policy, ps, tl0, Enqueue(policy, ps, s))
    ensures BeforeNow(policy, ps, Enqueue(policy, ps, s))
  {
    EnqueueTimes(policy, ps, tl0, s);
    EnqueueClocked(policy, ps, tl0, s);
    EnqueueRest(policy, ps, s);
    LogFrame(ps, s, Enqueue(policy, ps, s));
    assert s.currentJob !in s.waiting;
    if policy != RoundRobin {
      EnqueueOrdered(policy, ps, s);
    }
  }

  lemma {:induction false} AdmitStep(policy: Policy, ps: seq<Process>, tl0: seq<int>, s: State)
    requires Core(policy, ps, tl0, s) && BeforeNow(policy, ps, s)
    ensures Core(policy, ps, tl0, Admit(policy, ps, s))
    ensures BeforeNow(policy, ps, Admit(policy, ps, s))
    ensures var t := Admit(policy, ps, s);
      t.currentJob < |ps| ==> t.clock < ps[t.currentJob].arrival
    decreases |ps| - s.currentJob
  {
    if s.currentJob < |ps| && ps[s.currentJob].arrival == s.clock {
      EnqueueStep(policy, ps, tl0, s);
      AdmitStep(policy, ps, tl0, Enqueue(policy, ps, s));
    }
  }

  // ---------------------------------------------------------------------
  // Dispatch.

  /** The state after a dispatch, spelled out. */
  lemma DispatchFires(policy: Policy, ps: seq<Process>, s: State)
    requires Indexed(ps, s) && s.cpuFree && s.waiting != []
    ensures var t, h := Dispatch(policy, ps, s), s.waiting[0];
      && t.waiting == s.waiting[1..] && t.inCPU == h && !t.cpuFree
      && t.timeleft == s.timeleft[h := Due(ps, s.timeleft, h)]
      && t.started == s.started[h := s.clock]
      && t.quantum == (if policy == RoundRobin then MAX_QUANTUM else s.quantum)
      && t.placeholderLeft == s.placeholderLeft
      && Dispatched(t) == s.finished + [h] && Dispatched(s) == s.finished
      && Admitted(t) == Admitted(s)
  {
    var h := s.waiting[0];
    assert s.waiting == [h] + s.waiting[1..];
  }

  lemma DispatchShape(policy: Policy, ps: seq<Process>, s: State)
    requires Shape(ps, s) && s.cpuFree && s.waiting != []
    ensures Shape(ps, Dispatch(policy, ps, s))
  {
    DispatchFires(policy, ps, s);
    var w := s.waiting;
    assert forall m :: 0 <= m < |w| - 1 ==> w[1..][m] == w[m + 1];
    assert forall i :: i in w ==> i == w[0] || i in w[1..];
  }

  lemma DispatchTimes(policy: Policy, ps: seq<Process>, tl0: seq<int>, s: State)
    requires Workload(policy, ps, tl0) && Shape(ps, s) && Times(policy, ps, tl0, s)
    requires s.cpuFree && s.waiting != []
    ensures Times(policy, ps, tl0, Dispatch(policy, ps, s))
    ensures Due(ps, s.timeleft, s.waiting[0]) <= ps[s.waiting[0]].service
    ensures NonPreemptive(policy, ps) ==> Due(ps, s.timeleft, s.waiting[0]) == ps[s.waiting[0]].service
  {
    DispatchFires(policy, ps, s);
    var w, h := s.waiting, s.waiting[0];
    var t := Dispatch(policy, ps, s);
    assert QueuedTime(policy, ps, tl0, s, h);
    forall k | 0 <= k < |t.waiting|
      ensures QueuedTime(policy, ps, tl0, t, t.waiting[k])
    {
      assert t.waiting[k] == w[k + 1];
      assert QueuedTime(policy, ps, tl0, s, w[k + 1]);
    }
  }

  lemma DispatchClocked(policy: Policy, ps: seq<Process>, tl0: seq<int>, s: State)
    requires Workload(policy, ps, tl0) && Shape(ps, s) && Clocked(ps, s)
    requires s.cpuFree && s.waiting != []
    ensures var t := Dispatch(policy, ps, s);
      Outstanding(ps, t.timeleft, t.finished, |ps|) == Outstanding(ps, s.timeleft, s.finished, |ps|)
    ensures Clocked(ps, Dispatch(policy, ps, s))
  {
    DispatchFires(policy, ps, s);
    var t, h := Dispatch(policy, ps, s), s.waiting[0];
    assert h !in s.finished;
    OutstandingChange(ps, s.timeleft, s.finished, t.timeleft, t.finished, |ps|, h, 0);
  }

  lemma DispatchTiming(policy: Policy, ps: seq<Process>, s: State)
    requires Shape(ps, s) && Log(ps, s) && Clocked(ps, s) && Timing(policy, ps, s)
    requires s.cpuFree && s.waiting != []
    requires Due(ps, s.timeleft, s.waiting[0]) <= ps[s.waiting[0]].service
    requires NonPreemptive(policy, ps) ==> Due(ps, s.timeleft, s.waiting[0]) == ps[s.waiting[0]].service
    ensures Timing(policy, ps, Dispatch(policy, ps, s)) && Quantum(policy, ps, Dispatch(policy, ps, s))
  {
    DispatchFires(policy, ps, s);
    var t, h, f := Dispatch(policy, ps, s), s.waiting[0], s.finished;
    assert h !in f;
    forall a | 0 <= a < |f|
      ensures t.started[f[a]] == s.started[f[a]]
    {
    }
  }

  lemma DispatchOrdered(policy: Policy, ps: seq<Process>, s: State)
    requires Shape(ps, s) && Ordered(policy, ps, s)
    requires s.cpuFree && s.waiting != []
    ensures Ordered(policy, ps, Dispatch(policy, ps, s))
  {
    if policy != RoundRobin {
      DispatchFires(policy, ps, s);
      var w := s.waiting;
      assert w[0] !in s.finished;
      QueueTailOrdered(KeyOf(policy), ps, w);
      DispatchChoices(KeyOf(policy), ps, s.finished, s.started, s.clock, w);
    }
  }

  /** Taking the head keeps the rest of a queue sorted, ties in index order. */
  lemma QueueTailOrdered(key: Key, ps: seq<Process>, w: seq<nat>)
    requires w != [] && forall m :: 0 <= m < |w| ==> w[m] < |ps|
    requires Sorted(key, Jobs(ps, w))
    requires forall a, b :: 0 <= a < b < |w| && SameKey(key, ps[w[a]], ps[w[b]]) ==> w[a] < w[b]
    ensures Sorted(key, Jobs(ps, w[1..]))
    ensures forall a, b :: 0 <= a < b < |w| - 1 && SameKey(key, ps[w[1..][a]], ps[w[1..][b]]) ==>
              w[1..][a] < w[1..][b]
  {
    assert Jobs(ps, w[1..]) == Jobs(ps, w)[1..];
  }

  /**
   * The head of a sorted queue, ties in index order, is the right choice
   * over the rest of it; and every earlier choice stays right.
   */
  lemma DispatchChoices(key: Key, ps: seq<Process>, f: seq<nat>, started: seq<int>, clock: int, w: seq<nat>)
    requires w != [] && w[0] !in f && w[0] < |started|
    requires forall m :: 0 <= m < |w| ==> w[m] < |ps|
    requires forall a :: 0 <= a < |f| ==> f[a] < |ps| && f[a] < |started|
    requires Sorted(key, Jobs(ps, w))
    requires forall a, b :: 0 <= a < b < |w| && SameKey(key, ps[w[a]], ps[w[b]]) ==> w[a] < w[b]
    requires forall a, b :: 0 <= a < b < |f| && ps[f[b]].arrival <= started[f[a]] ==>
               Chosen(key, ps, f[a], f[b])
    requires forall a, m :: 0 <= a < |f| && 0 <= m < |w| && ps[w[m]].arrival <= started[f[a]] ==>
               Chosen(key, ps, f[a], w[m])
    ensures var d, st, w' := f + [w[0]], started[w[0] := clock], w[1..];
      && (forall a, b :: 0 <= a < b < |d| && ps[d[b]].arrival <= st[d[a]] ==> Chosen(key, ps, d[a], d[b]))
      && (forall a, m :: 0 <= a < |d| && 0 <= m < |w'| && ps[w'[m]].arrival <= st[d[a]] ==>
            Chosen(key, ps, d[a], w'[m]))
  {
    var d, st, w' := f + [w[0]], started[w[0] := clock], w[1..];
    forall a | 0 <= a < |f|
      ensures st[f[a]] == started[f[a]]
    {
    }
    forall a, b | 0 <= a < b < |d| && ps[d[b]].arrival <= st[d[a]]
      ensures Chosen(key, ps, d[a], d[b])
    {
      assert d[a] == f[a];
      if b < |f| {
        assert d[b] == f[b];
      }
    }
    forall a, m | 0 <= a < |d| && 0 <= m < |w'| && ps[w'[m]].arrival <= st[d[a]]
      ensures Chosen(key, ps, d[a], w'[m])
    {
      assert w'[m] == w[m + 1];
      if a < |f| {
        assert d[a] == f[a];
      } else {
        assert Jobs(ps, w)[0] == ps[w[0]] && Jobs(ps, w)[m + 1] == ps[w[m + 1]];
      }
    }
  }

  lemma DispatchStep(policy: Policy, ps: seq<Process>, tl0: seq<int>, s: State)
    requires Core(policy, ps, tl0, s)
    requires s.currentJob < |ps| ==> s.clock < ps[s.currentJob].arrival
    requires policy == RoundRobin && !s.cpuFree ==> 1 <= s.quantum
    ensures Inv(policy, ps, tl0, Dispatch(policy, ps, s))
  {
    if s.cpuFree && s.waiting != [] {
      DispatchShape(policy, ps, s);
      DispatchTimes(policy, ps, tl0, s);
      DispatchClocked(policy, ps, tl0, s);
      DispatchTiming(policy, ps, s);
      DispatchOrdered(policy, ps, s);
      DispatchFires(policy, ps, s);
      LogFrame(ps, s, Dispatch(policy, ps, s));
    }
  }

  // ---------------------------------------------------------------------
  // A whole tick.

  /** Every tick of a loop that has not stopped keeps the invariant. */
  lemma TickStep(policy: Policy, ps: seq<Process>, tl0: seq<int>, s: State)
    requires Inv(policy, ps, tl0, s) && Live(ps, s)
    ensures Inv(policy, ps, tl0, Tick(policy, ps, s))
  {
    var c := Consume(policy, ps, s);
    ConsumeStep(policy, ps, tl0, s);
    var e := Expire(policy, ps, c);
    ExpireStep(policy, ps, tl0, c);
    var a := Admit(policy, ps, e);
    AdmitStep(policy, ps, tl0, e);
    assert a.quantum == e.quantum && a.cpuFree == e.cpuFree && a.clock == e.clock;
    DispatchStep(policy, ps, tl0, a);
  }
}
