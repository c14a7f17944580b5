/**
 The program that runs the synchronization helpers on the guest: one helper after the other, against
 one deadline; a helper that is still running at the deadline is terminated, and killed if that does
 not end it. Times are milliseconds; only waiting takes time.
 */
module GuestLoop {
  import opened Basics

  datatype Dataset = Asr | UlsCommercial | UlsPrivate

  datatype Job = Preflight | Import(dataset: Dataset)

  /** What is asked for: a check only, one dataset, or all of them. */
  datatype Order = CheckOnly | One(dataset: Dataset) | All

  function Jobs(order: Order): seq<Job> {
    match order
    case CheckOnly => [Preflight]
    case One(dataset) => [Import(dataset)]
    case All => [Import(Asr), Import(UlsCommercial), Import(UlsPrivate)]
  }

  function GuestTimeout(order: Order): nat {
    if order.CheckOnly? then 120000 else 9900000
  }

  function RemoteTimeout(order: Order): nat {
    if order.CheckOnly? then 180000 else 10200000
  }

  const GRACE: nat := 60000

  /** The helpers that an order asks for, and how long they may take: two minutes for a check, else 165. */
  ghost predicate IsOrder(order: Order, jobs: seq<Job>, timeout: nat) {
    match order
    case CheckOnly => jobs == [Preflight] && timeout == 2 * 60000
    case One(dataset) => jobs == [Import(dataset)] && timeout == 165 * 60000
    case All => jobs == [Import(Asr), Import(UlsCommercial), Import(UlsPrivate)] && timeout == 165 * 60000
  }

  datatype Ending = Exited(code: int) | Terminated | Killed

  /** What is done with a helper: waiting for its exit code, and signalling its group. */
  datatype Step = Waited(code: Option<int>) | Signalled(force: bool)

  /** One helper: what it ran, when it started and ended, how, and what was done with it. */
  datatype Run = Run(job: Job, from: int, to: int, ending: Ending, steps: seq<Step>)

  datatype Failure = HelperFailed | DeadlineElapsed

  predicate Clean(run: Run) {
    run.ending == Exited(0)
  }

  /** It exited in the first wait; or it was sent TERM and exited in the second; or it did not, and was killed. */
  predicate EndedBy(ending: Ending, steps: seq<Step>) {
    match ending
    case Exited(code) => steps == [Waited(Some(code))]
    case Terminated =>
      && |steps| == 3 && steps[..2] == [Waited(None), Signalled(false)]
      && steps[2].Waited? && steps[2].code.Some?
    case Killed => steps == [Waited(None), Signalled(false), Waited(None), Signalled(true)]
  }

  /** A helper is started before the deadline, and outlives it only to be stopped. */
  predicate Timely(run: Run, deadline: int, reap: nat) {
    && run.from < deadline && run.from <= run.to && EndedBy(run.ending, run.steps)
    && (if run.ending.Exited? then run.to <= deadline else deadline <= run.to)
    && (run.ending.Terminated? ==> run.to <= deadline + 60000)
    && (run.ending.Killed? ==> deadline + 60000 <= run.to <= deadline + 60000 + reap)
  }

  /** The limits of one execution: when it started, its deadline, and the bound on reaping. */
  datatype Limits = Limits(start: int, deadline: int, reap: nat)

  /** Run i is the i-th job, and was not started before the previous one had ended cleanly. */
  predicate RunFits(jobs: seq<Job>, limits: Limits, runs: seq<Run>, i: nat)
    requires i < |runs| <= |jobs|
  {
    && runs[i].job == jobs[i] && limits.start <= runs[i].from && Timely(runs[i], limits.deadline, limits.reap)
    && (i > 0 ==> Clean(runs[i - 1]) && runs[i - 1].to <= runs[i].from)
  }

  predicate InOrder(jobs: seq<Job>, limits: Limits, runs: seq<Run>) {
    |runs| <= |jobs| && forall i | 0 <= i < |runs| :: RunFits(jobs, limits, runs, i)
  }

  /** Every run but the last was clean by being in order; so the last one decides about all. */
  predicate LastClean(runs: seq<Run>) {
    runs == [] || Clean(runs[|runs| - 1])
  }

  lemma OneMoreRun(jobs: seq<Job>, limits: Limits, runs: seq<Run>, run: Run)
    requires InOrder(jobs, limits, runs) && LastClean(runs) && |runs| < |jobs| && run.job == jobs[|runs|]
    requires limits.start <= run.from && Timely(run, limits.deadline, limits.reap)
    requires runs != [] ==> runs[|runs| - 1].to <= run.from
    ensures InOrder(jobs, limits, runs + [run])
  {
    var more := runs + [run];
    forall i | 0 <= i < |more| ensures RunFits(jobs, limits, more, i) {
      if i < |runs| {
        assert RunFits(jobs, limits, runs, i);
      }
    }
  }

  /** All helpers but possibly the last exited with 0, and no two of them overlap. */
  lemma {:induction false} EarlierRunsAreClean(jobs: seq<Job>, limits: Limits, runs: seq<Run>, i: nat, j: nat)
    requires InOrder(jobs, limits, runs) && i < j < |runs|
    ensures Clean(runs[i]) && runs[i].to <= runs[j].from
    decreases j
  {
    assert RunFits(jobs, limits, runs, j) && RunFits(jobs, limits, runs, j - 1);
    if i < j - 1 {
      EarlierRunsAreClean(jobs, limits, runs, i, j - 1);
    }
  }

  class Guest {
    var now: int
    var running: multiset<Job>
    ghost var peak: nat
    /** When each running helper was started, and every helper that has ended, in that order. */
    ghost var since: map<Job, int>
    ghost var log: seq<Run>
    /** What was done with the helper that was started last. */
    ghost var steps: seq<Step>
    /** An upper bound on the time between a kill and the moment the helper is gone. */
    const reap: nat

    constructor (now: int, reap: nat)
      ensures this.now == now && running == multiset{} && peak == 0 && log == [] && this.reap == reap
    {
      this.now, running, peak, since, log, steps, this.reap := now, multiset{}, 0, map[], [], [], reap;
    }

    method Start(job: Job)
      modifies this`running, this`peak, this`since, this`steps
      ensures running == old(running) + multiset{job} && peak == Max(old(peak), |running|)
      ensures since == old(since)[job := now] && steps == []
    {
      running, since, steps := running + multiset{job}, since[job := now], [];
      peak := Max(peak, |running|);
    }

    /** The helper is gone; how it ended is recorded. */
    method End(job: Job, ending: Ending)
      requires job in running && job in since
      modifies this`running, this`log
      ensures running == old(running) - multiset{job} && log == old(log) + [Run(job, since[job], now, ending, steps)]
    {
      running := running - multiset{job};
      log := log + [Run(job, since[job], now, ending, steps)];
    }

    /** Waits for a helper to end, for this long at most; the code it exits with, or nothing. */
    method Wait(job: Job, limit: nat) returns (code: Option<int>)
      requires job in running && job in since
      modifies this`now, this`steps
      ensures code.Some? ==> old(now) <= now <= old(now) + limit
      ensures code.None? ==> now == old(now) + limit
      ensures steps == old(steps) + [Waited(code)]
    {
      var duration: int := *;
      if 0 <= duration <= limit {
        var status: int := *;
        now, code := now + duration, Some(status);
      } else {
        now, code := now + limit, None;
      }
      steps := steps + [Waited(code)];
    }

    method Signal(job: Job, force: bool)
      requires job in running
      modifies this`steps
      ensures steps == old(steps) + [Signalled(force)]
    {
      steps := steps + [Signalled(force)];
    }

    /** Stops a helper: a terminating signal to its group, then a killing one. */
    method Stop(job: Job) returns (ending: Ending)
      requires job in running && job in since && steps == [Waited(None)]
      modifies this`now, this`steps
      ensures EndedBy(ending, steps)
      ensures old(now) <= now && (ending.Terminated? || ending.Killed?)
      ensures ending.Terminated? ==> now <= old(now) + 60000
      ensures ending.Killed? ==> old(now) + 60000 <= now <= old(now) + 60000 + reap
    {
      Signal(job, false);
      var code := Wait(job, GRACE);
      if code.Some? {
        return Terminated;
      }
      Signal(job, true);
      var duration: int := *;
      now := now + Max(0, Min(duration, reap));
      ending := Killed;
    }

    /** Runs one helper until it ends or the deadline has passed. */
    method RunHelper(job: Job, deadline: int) returns (ending: Ending)
      requires running == multiset{} && now < deadline
      modifies this
      ensures running == multiset{} && peak == Max(old(peak), 1)
      ensures log == old(log) + [Run(job, old(now), now, ending, steps)]
      ensures Timely(Run(job, old(now), now, ending, steps), deadline, reap)
    {
      var remaining := deadline - now;
      Start(job);
      var code := Wait(job, remaining);
      if code.Some? {
        ending := Exited(code.value);
      } else {
        ending := Stop(job);
      }
      End(job, ending);
    }

    /**
     Runs the helpers of an order. At most one runs at any time, and none is left running; they run
     in order, each only after all before it exited with 0; it succeeds exactly when all of them did,
     and at the deadline it fails without starting another one.
     */
    method RunHelpers(order: Order)
      returns (r: Result<(), Failure>, ghost runs: seq<Run>, ghost jobs: seq<Job>, ghost timeout: nat)
      requires running == multiset{}
      modifies this
      ensures running == multiset{} && peak <= Max(old(peak), 1) && log == old(log) + runs
      ensures IsOrder(order, jobs, timeout) && InOrder(jobs, Limits(old(now), old(now) + timeout, reap), runs)
      ensures r.Ok? <==> |runs| == |jobs| && LastClean(runs)
      ensures r == Err(HelperFailed) <==> !LastClean(runs) && runs[|runs| - 1].ending.Exited?
      ensures r == Err(DeadlineElapsed) ==> now >= old(now) + timeout
      ensures old(now) <= now <= old(now) + timeout + 60000 + reap
      ensures now == if runs == [] then old(now) else runs[|runs| - 1].to
    {
      runs := [];
      var asked := Jobs(order);
      var deadline := now + GuestTimeout(order);
      jobs, timeout := asked, GuestTimeout(order);
      ghost var limits := Limits(now, deadline, reap);
      for k := 0 to |asked|
        invariant running == multiset{} && peak <= Max(old(peak), 1) && log == old(log) + runs
        invariant |runs| == k && InOrder(jobs, limits, runs) && LastClean(runs)
        invariant old(now) <= now <= deadline && now == if runs == [] then old(now) else runs[k - 1].to
      {
        if deadline - now <= 0 {
          return Err(DeadlineElapsed), runs, jobs, timeout;
        }
        ghost var from := now;
        var ending := RunHelper(asked[k], deadline);
        ghost var run := Run(asked[k], from, now, ending, steps);
        OneMoreRun(jobs, limits, runs, run);
        Regrouped(old(log), runs, [run]);
        runs := runs + [run];
        if !ending.Exited? {
          return Err(DeadlineElapsed), runs, jobs, timeout;
        }
        if ending.code != 0 {
          return Err(HelperFailed), runs, jobs, timeout;
        }
      }
      r := Ok(());
    }
  }

  /** Whether every possible run of these helpers, started at 0, is over before the service gives up on the command. */
  ghost predicate AlwaysInTime(order: Order, reap: nat) {
    forall runs: seq<Run>, i: nat | i < |runs| && PossibleRuns(order, reap, runs) :: runs[i].to < RemoteTimeout(order)
  }

  /** The service gives up on a check after three minutes, and on a synchronization after 170. */
  lemma RemoteTimeoutsAre()
    ensures RemoteTimeout(CheckOnly) == 3 * 60000 && RemoteTimeout(All) == 170 * 60000
    ensures forall dataset :: RemoteTimeout(One(dataset)) == 170 * 60000
  {
  }

  ghost predicate PossibleRuns(order: Order, reap: nat, runs: seq<Run>) {
    exists jobs, timeout: nat | IsOrder(order, jobs, timeout) :: InOrder(jobs, Limits(0, timeout, reap), runs)
  }

  /**
   A synchronization is over in time whenever a killed helper is gone within four minutes. A check
   never is for certain: its deadline and the grace period already use up the whole remote timeout.
   */
  lemma RemoteTimeoutIsKept(order: Order, reap: nat)
    ensures AlwaysInTime(order, reap) <==> !order.CheckOnly? && reap < 240000
  {
    var last := GuestTimeout(order) + GRACE + reap;
    var limits := Limits(0, GuestTimeout(order), reap);
    var worst := [Run(Jobs(order)[0], 0, last, Killed, [Waited(None), Signalled(false), Waited(None), Signalled(true)])];
    assert RunFits(Jobs(order), limits, worst, 0);
    assert IsOrder(order, Jobs(order), GuestTimeout(order));
    assert PossibleRuns(order, reap, worst);
    assert worst[0].to == last;
    forall runs: seq<Run>, i: nat | i < |runs| && PossibleRuns(order, reap, runs) ensures runs[i].to <= last {
      var jobs, timeout: nat :| IsOrder(order, jobs, timeout) && InOrder(jobs, Limits(0, timeout, reap), runs);
      assert jobs == Jobs(order) && RunFits(jobs, limits, runs, i);
    }
  }
}
