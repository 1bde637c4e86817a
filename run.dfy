/**
 * A whole run of a scheduler of src/comparison.c: the tick loop from its
 * start to its exit, and what the run as a whole guarantees of the
 * completion records.
 */
module Runs {
  import opened Processes
  import opened Queues
  import opened Simulation
  import opened Invariants

  /** The latest tick a run can last to: every job arrived and served back to back. */
  function Horizon(ps: seq<Process>): int {
    MaxArrival(ps) + TotalService(ps)
  }

  /**
   * The loop from state `s` on: tick until the exit test at the end of a
   * tick succeeds. Each tick moves the clock on by one, and the clock
   * never passes the horizon, so the loop ends.
   */
  function Run(policy: Policy, ps: seq<Process>, tl0: seq<int>, s: State): (r: State)
    requires Inv(policy, ps, tl0, s) && Live(ps, s)
    ensures Inv(policy, ps, tl0, r) && Halted(ps, r)
    ensures s.clock < r.clock <= Horizon(ps)
    decreases Horizon(ps) - s.clock
  {
    TickStep(policy, ps, tl0, s);
    var t := Tick(policy, ps, s);
    OutstandingNonNegative(ps, t.timeleft, t.finished, |ps|);
    if Halted(ps, t) then t else Run(policy, ps, tl0, t)
  }

  /** A scheduler's run on jobs `ps` whose times left start as `tl0`. */
  function Simulate(policy: Policy, ps: seq<Process>, tl0: seq<int>): (r: State)
    requires Workload(policy, ps, tl0)
    ensures Halted(ps, r) && 0 <= r.clock <= Horizon(ps)
  {
    Run(policy, ps, tl0, Start(policy, ps, tl0))
  }

  /** The state the loop starts in. */
  function Start(policy: Policy, ps: seq<Process>, tl0: seq<int>): (s: State)
    requires Workload(policy, ps, tl0)
    ensures s == Init(ps, tl0) && Inv(policy, ps, tl0, s) && Live(ps, s)
  {
    InitInv(policy, ps, tl0);
    Init(ps, tl0)
  }

  /** The run ends in a state that keeps the invariant. */
  lemma SimulateInv(policy: Policy, ps: seq<Process>, tl0: seq<int>, r: State)
    requires Workload(policy, ps, tl0) && r == Simulate(policy, ps, tl0)
    ensures Inv(policy, ps, tl0, r)
  {
    InitInv(policy, ps, tl0);
  }

  /** The state after `k` ticks from the start, the exit test aside. */
  function Ticks(policy: Policy, ps: seq<Process>, tl0: seq<int>, k: nat): (r: State)
    requires |tl0| == |ps|
    ensures Indexed(ps, r) && r.clock == k - 1
  {
    if k == 0 then Init(ps, tl0) else Tick(policy, ps, Ticks(policy, ps, tl0, k - 1))
  }

  /** Once the exit test holds it holds after every further tick: nothing is left to admit, queue or run. */
  lemma HaltedStays(policy: Policy, ps: seq<Process>, s: State)
    requires Indexed(ps, s) && Halted(ps, s)
    ensures Halted(ps, Tick(policy, ps, s))
  {
    var c := Consume(policy, ps, s);
    var e := Expire(policy, ps, c);
    assert c.cpuFree && e == c;
    assert Admit(policy, ps, e) == e;
  }

  /**
   * The loop reaches `s`: it is the state after some number of ticks, and
   * the loop goes on from it. As the exit test, once it holds, holds for
   * good, no earlier tick ended the loop either.
   */
  ghost predicate Reaches(policy: Policy, ps: seq<Process>, tl0: seq<int>, s: State) {
    && Workload(policy, ps, tl0)
    && Live(ps, s)
    && exists k: nat :: Ticks(policy, ps, tl0, k) == s
  }

  /** A state the loop reaches keeps the invariant, and its run is the whole run's remainder. */
  lemma {:induction false} TicksOnTrack(policy: Policy, ps: seq<Process>, tl0: seq<int>, k: nat, s: State)
    requires Workload(policy, ps, tl0) && s == Ticks(policy, ps, tl0, k) && Live(ps, s)
    ensures Inv(policy, ps, tl0, s) && Live(ps, s) && Run(policy, ps, tl0, s) == Simulate(policy, ps, tl0)
  {
    if k == 0 {
      InitInv(policy, ps, tl0);
    } else {
      var prev := Ticks(policy, ps, tl0, k - 1);
      if Halted(ps, prev) && 0 < k - 1 {
        HaltedStays(policy, ps, prev);
      }
      TicksOnTrack(policy, ps, tl0, k - 1, prev);
      NextOnTrack(policy, ps, tl0, prev, s);
    }
  }

  /** A tick that does not end the loop moves on to a state with the same remaining run. */
  lemma NextOnTrack(policy: Policy, ps: seq<Process>, tl0: seq<int>, s: State, t: State)
    requires Inv(policy, ps, tl0, s) && Live(ps, s)
    requires Indexed(ps, s) && t == Tick(policy, ps, s) && !Halted(ps, t)
    ensures Inv(policy, ps, tl0, t) && Live(ps, t) && Run(policy, ps, tl0, t) == Run(policy, ps, tl0, s)
  {
    TickStep(policy, ps, tl0, s);
  }

  /**
   * One more tick from a state the loop reaches: the clock stays within
   * the horizon, and the tick either ends the loop in the state `Simulate`
   * describes or reaches the next state.
   */
  lemma Advance(policy: Policy, ps: seq<Process>, tl0: seq<int>, s: State)
    requires Reaches(policy, ps, tl0, s)
    ensures Indexed(ps, s) && s.placeholderLeft < 0
    ensures s.clock < Tick(policy, ps, s).clock <= Horizon(ps)
    ensures Halted(ps, Tick(policy, ps, s)) ==> Tick(policy, ps, s) == Simulate(policy, ps, tl0)
    ensures !Halted(ps, Tick(policy, ps, s)) ==> Reaches(policy, ps, tl0, Tick(policy, ps, s))
  {
    var k: nat :| Ticks(policy, ps, tl0, k) == s;
    TicksOnTrack(policy, ps, tl0, k, s);
    TickFacts(policy, ps, tl0, s);
    assert Ticks(policy, ps, tl0, k + 1) == Tick(policy, ps, s);
  }

  /** What the loop needs of one tick from a state on the way to `Simulate`. */
  lemma TickFacts(policy: Policy, ps: seq<Process>, tl0: seq<int>, s: State)
    requires Inv(policy, ps, tl0, s) && Live(ps, s) && Run(policy, ps, tl0, s) == Simulate(policy, ps, tl0)
    ensures Indexed(ps, s) && s.placeholderLeft < 0
    ensures s.clock < Tick(policy, ps, s).clock <= Horizon(ps)
    ensures Halted(ps, Tick(policy, ps, s)) ==> Tick(policy, ps, s) == Simulate(policy, ps, tl0)
  {
    TickStep(policy, ps, tl0, s);
    var t := Tick(policy, ps, s);
    OutstandingNonNegative(ps, t.timeleft, t.finished, |ps|);
  }

  /** The loop starts in a state it reaches. */
  lemma ReachesInit(policy: Policy, ps: seq<Process>, tl0: seq<int>)
    requires Workload(policy, ps, tl0)
    ensures Reaches(policy, ps, tl0, Init(ps, tl0))
  {
    assert Ticks(policy, ps, tl0, 0) == Init(ps, tl0);
  }

  /**
   * When the loop exits, every job has finished exactly once, in the
   * order of the records, and its time left is used up.
   */
  lemma HaltedAllFinished(policy: Policy, ps: seq<Process>, tl0: seq<int>, s: State)
    requires Inv(policy, ps, tl0, s) && Halted(ps, s)
    ensures |s.finished| == |s.records| == |ps|
    ensures forall i :: 0 <= i < |ps| ==> i in s.finished
    ensures forall a, b :: 0 <= a < b < |s.finished| ==> s.finished[a] != s.finished[b]
    ensures forall i :: 0 <= i < |ps| ==> s.timeleft[i] <= 0
  {
    assert Admitted(s) == s.finished;
    forall i | 0 <= i < |ps|
      ensures i in s.finished && s.timeleft[i] <= 0
    {
      assert i in s.finished;
      var k :| 0 <= k < |s.finished| && s.finished[k] == i;
    }
  }

  /**
   * Every job yields exactly one completion record, in completion order:
   * the record names the job, copies its arrival, and reports a wait
   * that is never negative and a completion no later than the horizon.
   */
  lemma EveryJobRecordedOnce(policy: Policy, ps: seq<Process>, tl0: seq<int>)
    requires Workload(policy, ps, tl0)
    ensures var r := Simulate(policy, ps, tl0);
      && |r.records| == |r.finished| == |ps|
      && (forall i :: 0 <= i < |ps| ==> i in r.finished)
      && (forall a, b :: 0 <= a < b < |r.finished| ==> r.finished[a] != r.finished[b])
      && (forall k :: 0 <= k < |r.records| ==>
            var p, rec := ps[r.finished[k]], r.records[k];
            && rec == RecordOf(p, rec.completion)
            && 0 <= rec.wait
            && rec.completion <= Horizon(ps))
      && (forall a, b :: 0 <= a < b < |r.records| ==> r.records[a].completion < r.records[b].completion)
  {
    var r := Simulate(policy, ps, tl0);
    SimulateInv(policy, ps, tl0, r);
    HaltedAllFinished(policy, ps, tl0, r);
  }

  /** At exit no job has time left, so a rerun on the same array starts every job afresh. */
  lemma RunUsesUpEveryJob(policy: Policy, ps: seq<Process>, tl0: seq<int>)
    requires Workload(policy, ps, tl0)
    ensures var r := Simulate(policy, ps, tl0);
      forall i :: 0 <= i < |ps| ==> r.timeleft[i] <= 0
  {
    var r := Simulate(policy, ps, tl0);
    SimulateInv(policy, ps, tl0, r);
    HaltedAllFinished(policy, ps, tl0, r);
  }

  /**
   * Without preemption (shortest job and highest priority, and round
   * robin when no job needs two quanta) a job runs from its dispatch to
   * its completion: completion = dispatch tick + service, and no job is
   * dispatched before it arrives.
   */
  lemma RunsToCompletion(policy: Policy, ps: seq<Process>, tl0: seq<int>)
    requires Workload(policy, ps, tl0) && NonPreemptive(policy, ps)
    ensures var r := Simulate(policy, ps, tl0);
      forall k :: 0 <= k < |r.records| ==>
        var i := r.finished[k];
        && ps[i].arrival <= r.started[i]
        && r.records[k].completion == r.started[i] + ps[i].service
  {
    var r := Simulate(policy, ps, tl0);
    SimulateInv(policy, ps, tl0, r);
    HaltedAllFinished(policy, ps, tl0, r);
    assert Dispatched(r) == r.finished;
  }

  /**
   * Shortest job and highest priority: of two jobs, the one that finished
   * first was the right choice over the other whenever the other had
   * already arrived at its dispatch — its key is no worse, and on a tie
   * it came first in the job list.
   */
  lemma BestJobChosen(policy: Policy, ps: seq<Process>, tl0: seq<int>)
    requires Workload(policy, ps, tl0) && policy != RoundRobin
    ensures var r := Simulate(policy, ps, tl0);
      forall a, b :: 0 <= a < b < |r.finished| && ps[r.finished[b]].arrival <= r.started[r.finished[a]] ==>
        var i, j := r.finished[a], r.finished[b];
        && !Precedes(KeyOf(policy), ps[j], ps[i])
        && (SameKey(KeyOf(policy), ps[i], ps[j]) ==> i < j)
  {
    var r := Simulate(policy, ps, tl0);
    SimulateInv(policy, ps, tl0, r);
    HaltedAllFinished(policy, ps, tl0, r);
    assert Dispatched(r) == r.finished;
  }

  /** Round robin where no job needs more than one quantum finishes the jobs in list order. */
  lemma ShortJobsFinishInOrder(ps: seq<Process>, tl0: seq<int>)
    requires Workload(RoundRobin, ps, tl0) && AllShort(ps)
    ensures var r := Simulate(RoundRobin, ps, tl0);
      |r.finished| == |ps| && forall k :: 0 <= k < |ps| ==> r.finished[k] == k
  {
    var r := Simulate(RoundRobin, ps, tl0);
    SimulateInv(RoundRobin, ps, tl0, r);
    HaltedFifo(ps, r);
  }

  lemma HaltedFifo(ps: seq<Process>, s: State)
    requires Fifo(RoundRobin, ps, s) && Halted(ps, s) && AllShort(ps)
    ensures |s.finished| == |ps| && forall k :: 0 <= k < |ps| ==> s.finished[k] == k
  {
    assert Admitted(s) == s.finished;
  }
}
