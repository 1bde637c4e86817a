/**
 * The three schedulers of src/comparison.c, imperatively: the tick loop
 * over the job objects, the placeholder job and the linked ready queue,
 * each phase of a tick shown to take the heap from one state of the
 * machine of module Simulation to the next, so that a scheduler writes
 * exactly the records of `Simulate`.
 *
 * The C loop keeps `clock`, `quantum`, `currentJob`, `CPUfree` and `inCPU`
 * in locals; here each phase of the tick is a method that takes and
 * returns them, and the output file is the sequence `records`.
 */
module Comparison {
  import opened Processes
  import opened Queues
  import opened Simulation
  import opened Runs

  /** The times left of the jobs, read through the heap. */
  function TimeLeft(ps: seq<Process>): (r: seq<int>)
    reads ps
    ensures |r| == |ps| && forall i :: 0 <= i < |ps| ==> r[i] == ps[i].timeleft
  {
    seq(|ps|, i reads ps requires 0 <= i < |ps| => ps[i].timeleft)
  }

  /** The fields hold the times `tl`. */
  lemma TimeLeftIs(ps: seq<Process>, tl: seq<int>)
    requires |tl| == |ps| && forall i :: 0 <= i < |ps| ==> ps[i].timeleft == tl[i]
    ensures TimeLeft(ps) == tl
  {
  }

  /**
   * The locals of the loop and the heap are the machine state `s`: the
   * job on the CPU is the placeholder or the job `s.inCPU`, the queue's
   * nodes hold the jobs `s.waiting`, and each job's `timeleft` field is
   * its time left in `s`.
   */
  ghost predicate Matches(policy: Policy, ps: seq<Process>, dummy: Process, waiting: Queue,
                          inCPU: Process, clock: int, quantum: int, currentJob: int, cpuFree: bool,
                          records: seq<Record>, s: State)
    reads ps, dummy, waiting, waiting.Repr
  {
    && Indexed(ps, s)
    && clock == s.clock && quantum == s.quantum && currentJob == s.currentJob
    && cpuFree == s.cpuFree && records == s.records
    && inCPU == (if s.inCPU < 0 then dummy else ps[s.inCPU])
    && dummy.timeleft == s.placeholderLeft
    && (forall i :: 0 <= i < |ps| ==> ps[i].timeleft == s.timeleft[i] && ps[i] != dummy)
    && waiting.Valid() && waiting.Contents == Jobs(ps, s.waiting)
    && (policy == RoundRobin ==> waiting.TailIsLast())
    && dummy !in waiting.Repr
    && (forall i :: 0 <= i < |ps| ==> ps[i] !in waiting.Repr)
  }

  /** Different indices name different jobs, as the elements of the C job array are. */
  predicate Distinct(ps: seq<Process>) {
    forall i, j :: 0 <= i < j < |ps| ==> ps[i] != ps[j]
  }

  lemma JobsAppend(ps: seq<Process>, w: seq<nat>, x: nat)
    requires forall m :: 0 <= m < |w| ==> w[m] < |ps|
    requires x < |ps|
    ensures Jobs(ps, w + [x]) == Jobs(ps, w) + [ps[x]]
  {
  }

  lemma JobsTail(ps: seq<Process>, w: seq<nat>)
    requires forall m :: 0 <= m < |w| ==> w[m] < |ps|
    requires w != []
    ensures Jobs(ps, w[1..]) == Jobs(ps, w)[1..]
  {
  }

  /**
   * Lines 175-185: the quantum (round robin only) and the clock advance,
   * the job on the CPU uses the tick, and a job whose time reaches zero
   * is written out and frees the CPU.
   */
  method ConsumePhase(policy: Policy, ps: seq<Process>, dummy: Process, waiting: Queue,
                      inCPU: Process, clock: int, quantum: int, currentJob: int, cpuFree: bool,
                      records: seq<Record>, ghost s: State)
    returns (clock': int, quantum': int, cpuFree': bool, records': seq<Record>)
    requires Distinct(ps) && s.placeholderLeft < 0
    requires Matches(policy, ps, dummy, waiting, inCPU, clock, quantum, currentJob, cpuFree, records, s)
    modifies inCPU
    ensures Matches(policy, ps, dummy, waiting, inCPU, clock', quantum', currentJob, cpuFree', records',
                    Consume(policy, ps, s))
  {
    quantum' := if policy == RoundRobin then quantum - 1 else quantum;
    clock' := clock + 1;
    inCPU.timeleft := inCPU.timeleft - 1;
    cpuFree', records' := cpuFree, records;
    if inCPU.timeleft == 0 {
      records' := records + [RecordOf(inCPU, clock')];
      cpuFree' := true;
    }
  }

  /**
   * Lines 186-190: round robin's quantum expiry. The busy job is pushed
   * at the tail and the head popped onto the CPU, which is the same job
   * again when the queue was empty.
   */
  method ExpirePhase(policy: Policy, ps: seq<Process>, dummy: Process, waiting: Queue,
                     inCPU: Process, clock: int, quantum: int, currentJob: int, cpuFree: bool,
                     records: seq<Record>, ghost s: State)
    returns (inCPU': Process, quantum': int)
    requires Matches(policy, ps, dummy, waiting, inCPU, clock, quantum, currentJob, cpuFree, records, s)
    modifies waiting.Repr
    ensures fresh(waiting.Repr - old(waiting.Repr))
    ensures Matches(policy, ps, dummy, waiting, inCPU', clock, quantum', currentJob, cpuFree, records,
                    Expire(policy, ps, s))
  {
    inCPU', quantum' := inCPU, quantum;
    if policy == RoundRobin && quantum == 0 && !cpuFree {
      JobsAppend(ps, s.waiting, s.inCPU as nat);
      JobsTail(ps, s.waiting + [s.inCPU as nat]);
      waiting.Push(inCPU);
      inCPU' := waiting.Pop();
      quantum' := MAX_QUANTUM;
    }
  }

  /** Lines 193-194: job `currentJob` is pushed by the policy's push. */
  method EnqueueJob(policy: Policy, ps: seq<Process>, dummy: Process, waiting: Queue,
                    inCPU: Process, clock: int, quantum: int, currentJob: int, cpuFree: bool,
                    records: seq<Record>, ghost s: State)
    requires Matches(policy, ps, dummy, waiting, inCPU, clock, quantum, currentJob, cpuFree, records, s)
    requires 0 <= currentJob < |ps|
    modifies waiting.Repr
    ensures fresh(waiting.Repr - old(waiting.Repr))
    ensures Matches(policy, ps, dummy, waiting, inCPU, clock, quantum, currentJob + 1, cpuFree, records,
                    Enqueue(policy, ps, s))
  {
    if policy == RoundRobin {
      EnqueueAtTail(policy, ps, dummy, waiting, inCPU, clock, quantum, currentJob, cpuFree, records, s);
    } else {
      EnqueueByKey(policy, ps, dummy, waiting, inCPU, clock, quantum, currentJob, cpuFree, records, s);
    }
  }

  /** Line 193: round robin pushes the job at the tail. */
  method EnqueueAtTail(policy: Policy, ps: seq<Process>, dummy: Process, waiting: Queue,
                       inCPU: Process, clock: int, quantum: int, currentJob: int, cpuFree: bool,
                       records: seq<Record>, ghost s: State)
    requires Matches(policy, ps, dummy, waiting, inCPU, clock, quantum, currentJob, cpuFree, records, s)
    requires 0 <= currentJob < |ps| && policy == RoundRobin
    modifies waiting.Repr
    ensures fresh(waiting.Repr - old(waiting.Repr))
    ensures Matches(policy, ps, dummy, waiting, inCPU, clock, quantum, currentJob + 1, cpuFree, records,
                    Enqueue(policy, ps, s))
  {
    JobsAppend(ps, s.waiting, s.currentJob);
    waiting.Push(ps[currentJob]);
  }

  /** Lines 257-262 and 322-327: the ordered policies push by service or by priority. */
  method EnqueueByKey(policy: Policy, ps: seq<Process>, dummy: Process, waiting: Queue,
                      inCPU: Process, clock: int, quantum: int, currentJob: int, cpuFree: bool,
                      records: seq<Record>, ghost s: State)
    requires Matches(policy, ps, dummy, waiting, inCPU, clock, quantum, currentJob, cpuFree, records, s)
    requires 0 <= currentJob < |ps| && policy != RoundRobin
    modifies waiting.Repr
    ensures fresh(waiting.Repr - old(waiting.Repr))
    ensures Matches(policy, ps, dummy, waiting, inCPU, clock, quantum, currentJob + 1, cpuFree, records,
                    Enqueue(policy, ps, s))
  {
    EnqueueInserts(policy, ps, s);
    if policy == ShortestJob {
      waiting.PushBySerivce(ps[currentJob]);
    } else {
      waiting.PushByPriority(ps[currentJob]);
    }
  }

  /**
   * Lines 191-196: every job arriving at this tick is pushed, in index
   * order, by the policy's push.
   */
  method AdmitPhase(policy: Policy, ps: seq<Process>, dummy: Process, waiting: Queue,
                    inCPU: Process, clock: int, quantum: int, currentJob: int, cpuFree: bool,
                    records: seq<Record>, ghost s: State)
    returns (currentJob': int)
    requires Matches(policy, ps, dummy, waiting, inCPU, clock, quantum, currentJob, cpuFree, records, s)
    modifies waiting.Repr
    ensures fresh(waiting.Repr - old(waiting.Repr))
    ensures Matches(policy, ps, dummy, waiting, inCPU, clock, quantum, currentJob', cpuFree, records,
                    Admit(policy, ps, s))
  {
    ghost var t;
    currentJob', t := AdmitLoop(policy, ps, dummy, waiting, inCPU, clock, quantum, currentJob, cpuFree, records, s);
  }

  /** The loop of lines 191-196, ending in a state from which `Admit` admits no more. */
  method AdmitLoop(policy: Policy, ps: seq<Process>, dummy: Process, waiting: Queue,
                   inCPU: Process, clock: int, quantum: int, currentJob: int, cpuFree: bool,
                   records: seq<Record>, ghost s: State)
    returns (currentJob': int, ghost t: State)
    requires Matches(policy, ps, dummy, waiting, inCPU, clock, quantum, currentJob, cpuFree, records, s)
    modifies waiting.Repr
    ensures fresh(waiting.Repr - old(waiting.Repr))
    ensures Matches(policy, ps, dummy, waiting, inCPU, clock, quantum, currentJob', cpuFree, records, t)
    ensures t == Admit(policy, ps, s)
  {
    currentJob' := currentJob;
    t := s;
    while currentJob' < |ps| && ps[currentJob'].arrival == clock
      invariant Matches(policy, ps, dummy, waiting, inCPU, clock, quantum, currentJob', cpuFree, records, t)
      invariant Admit(policy, ps, t) == Admit(policy, ps, s)
      invariant fresh(waiting.Repr - old(waiting.Repr))
      decreases |ps| - currentJob'
    {
      EnqueueJob(policy, ps, dummy, waiting, inCPU, clock, quantum, currentJob', cpuFree, records, t);
      t := Enqueue(policy, ps, t);
      currentJob' := currentJob' + 1;
    }
  }

  /**
   * Lines 197-211: a free CPU takes the head of the queue, its time reset
   * to its service when none is left; the loop is to stop when the CPU is
   * free, the queue empty and every job admitted.
   */
  method DispatchPhase(policy: Policy, ps: seq<Process>, dummy: Process, waiting: Queue,
                       inCPU: Process, clock: int, quantum: int, currentJob: int, cpuFree: bool,
                       records: seq<Record>, ghost s: State)
    returns (inCPU': Process, quantum': int, cpuFree': bool, stop: bool)
    requires Distinct(ps)
    requires Matches(policy, ps, dummy, waiting, inCPU, clock, quantum, currentJob, cpuFree, records, s)
    modifies ps, waiting.Repr
    ensures fresh(waiting.Repr - old(waiting.Repr))
    ensures Matches(policy, ps, dummy, waiting, inCPU', clock, quantum', currentJob, cpuFree', records,
                    Dispatch(policy, ps, s))
    ensures stop <==> Halted(ps, s)
  {
    inCPU', quantum', cpuFree', stop := inCPU, quantum, cpuFree, false;
    if cpuFree {
      if waiting.IsEmpty() {
        if currentJob == |ps| {
          stop := true;
        }
      } else {
        JobsTail(ps, s.waiting);
        inCPU' := waiting.Pop();
        if inCPU'.timeleft <= 0 {
          inCPU'.timeleft := inCPU'.service;
        }
        if policy == RoundRobin {
          quantum' := MAX_QUANTUM;
        }
        cpuFree' := false;
      }
    }
  }

  /** Lines 175-190: the running job uses the tick, then round robin's quantum may expire. */
  method RunPhases(policy: Policy, ps: seq<Process>, dummy: Process, waiting: Queue,
                   inCPU: Process, clock: int, quantum: int, currentJob: int, cpuFree: bool,
                   records: seq<Record>, ghost s: State)
    returns (inCPU': Process, clock': int, quantum': int, cpuFree': bool, records': seq<Record>)
    requires Distinct(ps) && s.placeholderLeft < 0
    requires Matches(policy, ps, dummy, waiting, inCPU, clock, quantum, currentJob, cpuFree, records, s)
    modifies ps, dummy, waiting.Repr
    ensures fresh(waiting.Repr - old(waiting.Repr))
    ensures Matches(policy, ps, dummy, waiting, inCPU', clock', quantum', currentJob, cpuFree', records',
                    Expire(policy, ps, Consume(policy, ps, s)))
  {
    clock', quantum', cpuFree', records' :=
      ConsumePhase(policy, ps, dummy, waiting, inCPU, clock, quantum, currentJob, cpuFree, records, s);
    inCPU', quantum' :=
      ExpirePhase(policy, ps, dummy, waiting, inCPU, clock', quantum', currentJob, cpuFree', records',
                  Consume(policy, ps, s));
  }

  /** Lines 191-211: the arrivals are queued, then a free CPU takes the head of the queue. */
  method QueuePhases(policy: Policy, ps: seq<Process>, dummy: Process, waiting: Queue,
                     inCPU: Process, clock: int, quantum: int, currentJob: int, cpuFree: bool,
                     records: seq<Record>, ghost s0: State, ghost s: State)
    returns (inCPU': Process, quantum': int, currentJob': int, cpuFree': bool, stop: bool)
    requires Distinct(ps) && Indexed(ps, s0) && s == Expire(policy, ps, Consume(policy, ps, s0))
    requires Matches(policy, ps, dummy, waiting, inCPU, clock, quantum, currentJob, cpuFree, records, s)
    modifies ps, waiting.Repr
    ensures fresh(waiting.Repr - old(waiting.Repr))
    ensures Matches(policy, ps, dummy, waiting, inCPU', clock, quantum', currentJob', cpuFree', records,
                    Tick(policy, ps, s0))
    ensures stop <==> Halted(ps, Tick(policy, ps, s0))
  {
    currentJob' :=
      AdmitPhase(policy, ps, dummy, waiting, inCPU, clock, quantum, currentJob, cpuFree, records, s);
    inCPU', quantum', cpuFree', stop :=
      DispatchPhase(policy, ps, dummy, waiting, inCPU, clock, quantum, currentJob', cpuFree, records,
                    Admit(policy, ps, s));
    assert Tick(policy, ps, s0) == Dispatch(policy, ps, Admit(policy, ps, s));
  }

  /** Lines 174-212: one pass of the loop; `stop` is the exit test. */
  method Step(policy: Policy, ps: seq<Process>, dummy: Process, waiting: Queue,
              inCPU: Process, clock: int, quantum: int, currentJob: int, cpuFree: bool,
              records: seq<Record>, ghost s: State)
    returns (inCPU': Process, clock': int, quantum': int, currentJob': int, cpuFree': bool,
             records': seq<Record>, stop: bool)
    requires Distinct(ps) && s.placeholderLeft < 0
    requires Matches(policy, ps, dummy, waiting, inCPU, clock, quantum, currentJob, cpuFree, records, s)
    modifies ps, dummy, waiting.Repr
    ensures fresh(waiting.Repr - old(waiting.Repr))
    ensures Matches(policy, ps, dummy, waiting, inCPU', clock', quantum', currentJob', cpuFree', records',
                    Tick(policy, ps, s))
    ensures stop <==> Halted(ps, Tick(policy, ps, s))
  {
    ghost var repr := waiting.Repr;
    inCPU', clock', quantum', cpuFree', records' :=
      RunPhases(policy, ps, dummy, waiting, inCPU, clock, quantum, currentJob, cpuFree, records, s);
    ghost var e := Expire(policy, ps, Consume(policy, ps, s));
    ghost var repr' := waiting.Repr;
    inCPU', quantum', currentJob', cpuFree', stop :=
      QueuePhases(policy, ps, dummy, waiting, inCPU', clock', quantum', currentJob, cpuFree', records', s, e);
    assert fresh(waiting.Repr - repr') && fresh(repr' - repr);
  }

  /**
   * One pass of the loop from a state the loop reaches: the clock moves
   * on within the horizon, and either the exit test holds and the run
   * has written the records of `Simulate` and left its times, or the
   * loop reaches the next state.
   */
  method Turn(policy: Policy, ps: seq<Process>, ghost tl0: seq<int>, dummy: Process, waiting: Queue,
              inCPU: Process, clock: int, quantum: int, currentJob: int, cpuFree: bool,
              records: seq<Record>, ghost s: State)
    returns (inCPU': Process, clock': int, quantum': int, currentJob': int, cpuFree': bool,
             records': seq<Record>, stop: bool, ghost s': State)
    requires Distinct(ps) && Reaches(policy, ps, tl0, s)
    requires Matches(policy, ps, dummy, waiting, inCPU, clock, quantum, currentJob, cpuFree, records, s)
    modifies ps, dummy, waiting.Repr
    ensures fresh(waiting.Repr - old(waiting.Repr))
    ensures Matches(policy, ps, dummy, waiting, inCPU', clock', quantum', currentJob', cpuFree', records', s')
    ensures clock < clock' <= Horizon(ps)
    ensures stop ==> records' == Simulate(policy, ps, tl0).records
    ensures stop ==> TimeLeft(ps) == Simulate(policy, ps, tl0).timeleft
    ensures !stop ==> Reaches(policy, ps, tl0, s')
  {
    Advance(policy, ps, tl0, s);
    inCPU', clock', quantum', currentJob', cpuFree', records', stop :=
      Step(policy, ps, dummy, waiting, inCPU, clock, quantum, currentJob, cpuFree, records, s);
    s' := Tick(policy, ps, s);
    if stop {
      TimeLeftIs(ps, s'.timeleft);
    }
  }

  /**
   * Lines 157-219, 230-284 and 295-349: one scheduler run. It writes
   * exactly the records of `Simulate`, and leaves every job's time left
   * as the run does.
   */
  method Schedule(policy: Policy, processes: seq<Process>, ghost tl0: seq<int>) returns (records: seq<Record>)
    requires Distinct(processes) && tl0 == TimeLeft(processes)
    requires Workload(policy, processes, tl0)
    modifies processes
    ensures records == Simulate(policy, processes, tl0).records
    ensures TimeLeft(processes) == Simulate(policy, processes, tl0).timeleft
  {
    var dummy := new Process([], 0, 0, 0, -1);
    var waiting := new Queue();
    waiting.Initialize();
    var inCPU := dummy;
    var currentJob, clock, quantum, cpuFree := 0, -1, MAX_QUANTUM + 1, true;
    records := [];
    ghost var s := Init(processes, tl0);
    ReachesInit(policy, processes, tl0);
    while true
      invariant Matches(policy, processes, dummy, waiting, inCPU, clock, quantum, currentJob, cpuFree, records, s)
      invariant Reaches(policy, processes, tl0, s)
      invariant fresh(waiting.Repr)
      decreases Horizon(processes) - clock
    {
      var stop;
      inCPU, clock, quantum, currentJob, cpuFree, records, stop, s :=
        Turn(policy, processes, tl0, dummy, waiting, inCPU, clock, quantum, currentJob, cpuFree, records, s);
      if stop {
        break;
      }
    }
  }

  /** Lines 157-219. */
  method RoundRobinScheduler(processes: seq<Process>, ghost tl0: seq<int>) returns (records: seq<Record>)
    requires Distinct(processes) && tl0 == TimeLeft(processes)
    requires Workload(RoundRobin, processes, tl0)
    modifies processes
    ensures records == Simulate(RoundRobin, processes, tl0).records
    ensures TimeLeft(processes) == Simulate(RoundRobin, processes, tl0).timeleft
  {
    records := Schedule(RoundRobin, processes, tl0);
  }

  /** Lines 230-284. */
  method ShortestJobScheduler(processes: seq<Process>, ghost tl0: seq<int>) returns (records: seq<Record>)
    requires Distinct(processes) && tl0 == TimeLeft(processes)
    requires Workload(ShortestJob, processes, tl0)
    modifies processes
    ensures records == Simulate(ShortestJob, processes, tl0).records
    ensures TimeLeft(processes) == Simulate(ShortestJob, processes, tl0).timeleft
  {
    records := Schedule(ShortestJob, processes, tl0);
  }

  /** Lines 295-349. */
  method HighestPriorityScheduler(processes: seq<Process>, ghost tl0: seq<int>) returns (records: seq<Record>)
    requires Distinct(processes) && tl0 == TimeLeft(processes)
    requires Workload(HighestPriority, processes, tl0)
    modifies processes
    ensures records == Simulate(HighestPriority, processes, tl0).records
    ensures TimeLeft(processes) == Simulate(HighestPriority, processes, tl0).timeleft
  {
    records := Schedule(HighestPriority, processes, tl0);
  }
}
