/**
 * The dispatch loops of src/comparison.c as a state machine on values.
 *
 * One iteration of the `while(TRUE)` loop of the three schedulers is a
 * tick, made of four phases in a fixed order:
 *   Consume  -- the quantum (round robin only) and the clock advance, the
 *               job on the CPU uses the tick, and a job whose time runs out
 *               is recorded and frees the CPU;
 *   Expire   -- round robin only: a busy job whose quantum is used up goes
 *               to the tail of the queue and the head takes the CPU;
 *   Admit    -- every job arriving at this tick is queued, in index order;
 *   Dispatch -- a free CPU takes the head of the queue, its time reset to
 *               its service when none is left.
 * The loop stops after a tick that ends with the CPU free, the queue empty
 * and every job admitted. `Run` iterates ticks; `Simulate` runs a workload
 * from the initial state. The imperative schedulers in module Comparison
 * follow this machine step for step.
 *
 * Jobs are named by their index in the job array. The state also carries
 * two pieces of bookkeeping the C program does not keep: `finished`, the
 * job behind each record, and `started`, the tick each job last took the CPU.
 */
module Simulation {
  import opened Processes
  import opened Queues

  const MAX_QUANTUM := 10

  datatype Policy = RoundRobin | ShortestJob | HighestPriority

  /** The queue order of the two non-preemptive schedulers. */
  function KeyOf(policy: Policy): Key
    requires policy != RoundRobin
  {
    if policy == ShortestJob then Service else Priority
  }

  /** One line of a scheduler's output file: name, arrival, wait, completion. */
  datatype Record = Record(name: Name, arrival: int, wait: int, completion: int)

  /** The line written for job `p` when it completes at tick `clock`. */
  function RecordOf(p: Process, clock: int): (r: Record)
    ensures r.name == p.name && r.arrival == p.arrival && r.completion == clock
    ensures r.completion - r.arrival == r.wait + p.service
  {
    Record(p.name, p.arrival, clock - p.service - p.arrival, clock)
  }

  /**
   * The loop's state. `inCPU` is the index of the job on the CPU, or -1 for
   * the placeholder the schedulers start with, whose time is
   * `placeholderLeft`; `waiting` lists the queued jobs from head to tail;
   * `timeleft` holds every job's time left.
   */
  datatype State = State(
    clock: int,
    quantum: int,
    currentJob: nat,
    cpuFree: bool,
    inCPU: int,
    placeholderLeft: int,
    waiting: seq<nat>,
    timeleft: seq<int>,
    records: seq<Record>,
    finished: seq<nat>,
    started: seq<int>)

  /** The jobs a sequence of indices names. */
  function Jobs(ps: seq<Process>, w: seq<nat>): (r: seq<Process>)
    requires forall k :: 0 <= k < |w| ==> w[k] < |ps|
    ensures |r| == |w| && forall k :: 0 <= k < |w| ==> r[k] == ps[w[k]]
  {
    seq(|w|, k requires 0 <= k < |w| => ps[w[k]])
  }

  predicate AllShort(ps: seq<Process>) {
    forall i :: 0 <= i < |ps| ==> ps[i].service <= MAX_QUANTUM
  }

  /**
   * Every job keeps the CPU from dispatch to completion: always under the
   * two ordered policies, and under round robin when no job needs more
   * than one quantum.
   */
  predicate NonPreemptive(policy: Policy, ps: seq<Process>) {
    policy != RoundRobin || AllShort(ps)
  }

  /**
   * What the schedulers need of their job array: arrivals non-negative and
   * in order, every service at least one tick, and each job's time left
   * either its service (as the input reader sets it) or, for the ordered
   * policies, used up by an earlier run on the same array.
   */
  predicate Workload(policy: Policy, ps: seq<Process>, tl0: seq<int>) {
    && |tl0| == |ps|
    && (forall i :: 0 <= i < |ps| ==> 0 <= ps[i].arrival && 1 <= ps[i].service)
    && (forall i, j :: 0 <= i < j < |ps| ==> ps[i].arrival <= ps[j].arrival)
    && (forall i :: 0 <= i < |ps| ==> tl0[i] == ps[i].service || (policy != RoundRobin && tl0[i] <= 0))
  }

  /** The latest arrival, or 0 for no jobs. */
  function MaxArrival(ps: seq<Process>): (m: int)
    ensures 0 <= m
    ensures forall i :: 0 <= i < |ps| ==> ps[i].arrival <= m
  {
    if ps == [] then 0
    else
      var rest := MaxArrival(ps[1..]);
      if rest < ps[0].arrival then ps[0].arrival else rest
  }

  /** The service of the first `m` jobs, summed. */
  function ServiceUpTo(ps: seq<Process>, m: nat): int
    requires m <= |ps|
  {
    if m == 0 then 0 else ServiceUpTo(ps, m - 1) + ps[m - 1].service
  }

  function TotalService(ps: seq<Process>): int {
    ServiceUpTo(ps, |ps|)
  }

  /** The CPU time job `j` still needs when it is not finished: a used-up time means a fresh run. */
  function Due(ps: seq<Process>, timeleft: seq<int>, j: nat): (r: int)
    requires j < |ps| && j < |timeleft|
    ensures 0 < timeleft[j] ==> r == timeleft[j]
    ensures 1 <= ps[j].service && timeleft[j] <= ps[j].service ==> 1 <= r <= ps[j].service
  {
    if timeleft[j] <= 0 then ps[j].service else timeleft[j]
  }

  /** The CPU time job `i` still needs. */
  function Left(ps: seq<Process>, timeleft: seq<int>, finished: seq<nat>, i: nat): int
    requires i < |ps| && i < |timeleft|
  {
    if i in finished then 0 else Due(ps, timeleft, i)
  }

  /** The CPU time the first `m` jobs still need, summed. */
  function Outstanding(ps: seq<Process>, timeleft: seq<int>, finished: seq<nat>, m: nat): int
    requires m <= |ps| && m <= |timeleft|
  {
    if m == 0 then 0 else Outstanding(ps, timeleft, finished, m - 1) + Left(ps, timeleft, finished, m - 1)
  }

  /** The state before the first tick. */
  function Init(ps: seq<Process>, tl0: seq<int>): (s: State)
    ensures s.clock == -1 && s.cpuFree && s.currentJob == 0
    ensures Admitted(s) == [] && s.records == [] && s.timeleft == tl0
    ensures |tl0| == |ps| ==> Indexed(ps, s)
  {
    State(-1, MAX_QUANTUM + 1, 0, true, -1, -1, [], tl0, [], [], seq(|ps|, i => 0))
  }

  /** Index bounds every phase needs. */
  predicate Indexed(ps: seq<Process>, s: State) {
    && |s.timeleft| == |ps| && |s.started| == |ps|
    && s.currentJob <= |ps|
    && -1 <= s.inCPU < |ps|
    && (!s.cpuFree ==> 0 <= s.inCPU)
    && (forall k :: 0 <= k < |s.waiting| ==> s.waiting[k] < |ps|)
  }

  /** The jobs that have had the CPU, in order: the finished ones, then the running one. */
  function Dispatched(s: State): seq<nat> {
    if s.cpuFree || s.inCPU < 0 then s.finished else s.finished + [s.inCPU as nat]
  }

  /** Every admitted job: the dispatched ones, then the queue. */
  function Admitted(s: State): seq<nat> {
    Dispatched(s) + s.waiting
  }

  /** Lines 175-185 (and 246-256, 311-321). */
  function Consume(policy: Policy, ps: seq<Process>, s: State): (r: State)
    requires Indexed(ps, s)
    ensures Indexed(ps, r) && r.clock == s.clock + 1
    ensures r.waiting == s.waiting && r.currentJob == s.currentJob && r.started == s.started
    ensures Dispatched(r) == Dispatched(s)
    ensures r.records == s.records || (0 <= s.inCPU && r.records == s.records + [RecordOf(ps[s.inCPU], r.clock)])
    ensures r.timeleft == (if s.inCPU < 0 then s.timeleft else s.timeleft[s.inCPU := s.timeleft[s.inCPU] - 1])
    ensures r.records != s.records <==> 0 <= s.inCPU && s.timeleft[s.inCPU] == 1
    ensures r.cpuFree == (s.cpuFree || (0 <= s.inCPU && s.timeleft[s.inCPU] == 1))
  {
    var quantum := if policy == RoundRobin then s.quantum - 1 else s.quantum;
    var t := s.(quantum := quantum, clock := s.clock + 1);
    if s.inCPU < 0 then
      t.(placeholderLeft := s.placeholderLeft - 1)
    else
      var left := s.timeleft[s.inCPU] - 1;
      var u := t.(timeleft := s.timeleft[s.inCPU := left]);
      if left == 0 then
        u.(records := s.records + [RecordOf(ps[s.inCPU], u.clock)],
           finished := Dispatched(s), cpuFree := true)
      else
        u
  }

  /** Lines 186-190: round robin's quantum expiry. */
  function Expire(policy: Policy, ps: seq<Process>, s: State): (r: State)
    requires Indexed(ps, s)
    ensures Indexed(ps, r)
    ensures r.currentJob == s.currentJob && r.clock == s.clock && r.cpuFree == s.cpuFree
    ensures r.timeleft == s.timeleft && r.records == s.records && r.finished == s.finished
  {
    if policy == RoundRobin && s.quantum == 0 && !s.cpuFree then
      var queued := s.waiting + [s.inCPU as nat];
      s.(waiting := queued[1..], inCPU := queued[0], quantum := MAX_QUANTUM,
         started := s.started[queued[0] := s.clock])
    else
      s
  }

  /**
   * Where the policy's push puts job `j` in the queue `w`: the tail for
   * round robin (src/queue.c:149-170), its slot for the ordered pushes
   * (src/queue.c:48-86, 99-138).
   */
  function Place(policy: Policy, ps: seq<Process>, w: seq<nat>, j: nat): (k: nat)
    requires forall m :: 0 <= m < |w| ==> w[m] < |ps|
    requires j < |ps|
    ensures k <= |w|
  {
    if policy == RoundRobin then |w| else Slot(KeyOf(policy), Jobs(ps, w), ps[j])
  }

  /** Naming the jobs commutes with inserting an index. */
  lemma JobsInsert(ps: seq<Process>, w: seq<nat>, k: nat, j: nat)
    requires forall m :: 0 <= m < |w| ==> w[m] < |ps|
    requires k <= |w| && j < |ps|
    ensures Jobs(ps, w[..k] + [j] + w[k..]) == Jobs(ps, w)[..k] + [ps[j]] + Jobs(ps, w)[k..]
  {
    assert w == w[..k] + w[k..];
  }

  /** One pass of the admission loop: job `currentJob` is queued as the policy orders. */
  function Enqueue(policy: Policy, ps: seq<Process>, s: State): (r: State)
    requires Indexed(ps, s) && s.currentJob < |ps|
    ensures Indexed(ps, r) && r.currentJob == s.currentJob + 1
    ensures var k := Place(policy, ps, s.waiting, s.currentJob);
      r.waiting == s.waiting[..k] + [s.currentJob] + s.waiting[k..]
    ensures policy == RoundRobin ==> r.waiting == s.waiting + [s.currentJob]
    ensures r.(waiting := s.waiting, currentJob := s.currentJob) == s
  {
    var j := s.currentJob;
    var k := Place(policy, ps, s.waiting, j);
    assert s.waiting[..|s.waiting|] == s.waiting;
    s.(waiting := s.waiting[..k] + [j] + s.waiting[k..], currentJob := j + 1)
  }

  /** The ordered policies queue the job where the ordered pushes of src/queue.c:48-138 put it. */
  lemma EnqueueInserts(policy: Policy, ps: seq<Process>, s: State)
    requires Indexed(ps, s) && s.currentJob < |ps| && policy != RoundRobin
    ensures Jobs(ps, Enqueue(policy, ps, s).waiting) == Insert(KeyOf(policy), Jobs(ps, s.waiting), ps[s.currentJob])
  {
    JobsInsert(ps, s.waiting, Place(policy, ps, s.waiting, s.currentJob), s.currentJob);
  }

  /**
   * Lines 191-196: the admission loop. It queues exactly the jobs from
   * `currentJob` on that arrive at this tick, and changes nothing else.
   */
  function Admit(policy: Policy, ps: seq<Process>, s: State): (r: State)
    requires Indexed(ps, s)
    ensures Indexed(ps, r) && s.currentJob <= r.currentJob
    ensures forall i :: s.currentJob <= i < r.currentJob ==> ps[i].arrival == s.clock
    ensures r.currentJob < |ps| ==> ps[r.currentJob].arrival != s.clock
    ensures r.(waiting := s.waiting, currentJob := s.currentJob) == s
    decreases |ps| - s.currentJob
  {
    if s.currentJob < |ps| && ps[s.currentJob].arrival == s.clock then
      Admit(policy, ps, Enqueue(policy, ps, s))
    else
      s
  }

  /** Lines 197-211: a free CPU takes the head of the queue. */
  function Dispatch(policy: Policy, ps: seq<Process>, s: State): (r: State)
    requires Indexed(ps, s)
    ensures Indexed(ps, r)
    ensures r.clock == s.clock && r.currentJob == s.currentJob
    ensures r.records == s.records && r.finished == s.finished
  {
    if s.cpuFree && s.waiting != [] then
      var j := s.waiting[0];
      s.(waiting := s.waiting[1..], inCPU := j,
         timeleft := s.timeleft[j := Due(ps, s.timeleft, j)],
         quantum := if policy == RoundRobin then MAX_QUANTUM else s.quantum,
         cpuFree := false, started := s.started[j := s.clock])
    else
      s
  }

  /** One iteration of the loop. */
  function Tick(policy: Policy, ps: seq<Process>, s: State): (r: State)
    requires Indexed(ps, s)
    ensures Indexed(ps, r) && r.clock == s.clock + 1
  {
    Dispatch(policy, ps, Admit(policy, ps, Expire(policy, ps, Consume(policy, ps, s))))
  }

  /** The loop's exit condition, tested at the end of a tick (lines 197-202). */
  predicate Halted(ps: seq<Process>, s: State)
    ensures Halted(ps, s) ==> Admitted(s) == s.finished
  {
    s.cpuFree && s.waiting == [] && s.currentJob == |ps|
  }
}
