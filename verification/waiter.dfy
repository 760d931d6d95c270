/** `Job.wait_for`: poll the job until it reaches a target status, fails,
    disappears while being archived, or the retry budget runs out. The
    sleep between polls is one step; the k-th refresh's result is `observe(k)`. */
module Waiter {
  import opened Values
  import opened Errors
  import opened JobRecord

  /** Seconds between two polls. */
  const PollInterval: nat := 5

  /** The statuses `wait_for` accepts as a target. */
  const ValidTargets: set<string> := {"running", "stopped", "finished", "archived"}

  /** `math.ceil(timeout / POLL_INTERVAL)` for a whole number of seconds:
      the fewest polls whose intervals cover the timeout. */
  function RetryCount(timeout: nat): (n: nat)
    ensures n * PollInterval >= timeout
    ensures n > 0 ==> (n - 1) * PollInterval < timeout
  {
    (timeout + PollInterval - 1) / PollInterval
  }

  /** What one refresh returned: a fresh snapshot, or an ApiError. */
  datatype Poll = Refreshed(response: map<string, Value>) | Raised(error: ApiError)

  datatype WaitOutcome =
    | SpecError(spec: Error)           // invalid target, raised before any poll
    | ImmediateOk                      // already there: returns None, no poll
    | Ok(job: Job)                     // reached after polling: returns the job
    | ArchivedGone                     // 404 while waiting for archived: returns None
    | JobFailed(job: Job)              // JobError carrying the failed job
    | Timeout(target: string)          // "Timeout waiting for <target>"
    | Propagated(apiError: ApiError)   // any other ApiError, re-raised as is

  /** The outcome, the number of refreshes performed, whether the
      deprecation warning for `stopped` on a training job fired, and the
      caller's job afterwards: `refresh()` replaces it in place, so it holds
      the last snapshot a refresh returned. */
  datatype Waited = Waited(outcome: WaitOutcome, refreshes: nat, warned: bool, last: Job)

  /** The success rule: the status is the target, or the job is a training
      job reported `stopped` while `finished` is awaited. */
  predicate Reached(job: Job, target: string) {
    || job.Status() == Str(target)
    || (IsTrainingType(job.Type()) && target == "finished" && job.Status() == Str("stopped"))
  }

  /** A poll result on which the loop keeps going. */
  predicate Pending(target: string, p: Poll) {
    p.Refreshed? && !Reached(Job(p.response), target) && Job(p.response).Status() != Str("failed")
  }

  /** How a poll result that is not pending ends the wait of `current`. */
  function Conclude(target: string, current: Job, p: Poll): WaitOutcome
    requires !Pending(target, p)
  {
    match p
    case Raised(e) => if target == "archived" && e.status == 404 then ArchivedGone else Propagated(e)
    case Refreshed(response) =>
      var job := Refresh(current, response);
      if Reached(job, target) then Ok(job) else JobFailed(job)
  }

  /** The caller's job after one poll: a successful refresh replaces it,
      a raised one leaves it as it was. */
  function Step(current: Job, p: Poll): Job {
    match p
    case Refreshed(response) => Refresh(current, response)
    case Raised(_) => current
  }

  /** The caller's job after the polls numbered `lo` up to, not including, `hi`. */
  function Replay(current: Job, observe: nat -> Poll, lo: nat, hi: nat): Job
    requires lo <= hi
    decreases hi - lo
  {
    if lo == hi then current else Replay(Step(current, observe(lo)), observe, lo + 1, hi)
  }

  /** The `while count < retry_count` loop, entered with `count` refreshes
      done and the caller's job `current`: it ends on the first poll result
      that is not pending, or times out once every poll of the budget was
      pending. The result carries the outcome, the refreshes done and the
      caller's job at the end. */
  function PollLoop(target: string, retries: nat, count: nat, current: Job, observe: nat -> Poll): (r: (WaitOutcome, nat, Job))
    requires count <= retries
    ensures count <= r.1 <= retries
    ensures r.2 == Replay(current, observe, count, r.1)
    ensures r.0.Ok? || r.0.JobFailed? ==> r.2 == r.0.job
    ensures r.0.Timeout? ==>
      r.0.target == target && r.1 == retries && forall i :: count <= i < retries ==> Pending(target, observe(i))
    ensures !r.0.Timeout? ==>
      && count < r.1
      && !Pending(target, observe(r.1 - 1))
      && r.0 == Conclude(target, Replay(current, observe, count, r.1 - 1), observe(r.1 - 1))
      && forall i :: count <= i < r.1 - 1 ==> Pending(target, observe(i))
    decreases retries - count
  {
    if count == retries then (Timeout(target), count, current)
    else
      match observe(count)
      case Raised(e) =>
        if target == "archived" && e.status == 404 then (ArchivedGone, count + 1, current)
        else (Propagated(e), count + 1, current)
      case Refreshed(response) =>
        var job := Refresh(current, response);
        if Reached(job, target) then (Ok(job), count + 1, job)
        else if job.Status() == Str("failed") then (JobFailed(job), count + 1, job)
        else PollLoop(target, retries, count + 1, job, observe)
  }

  /** `wait_for(target, timeout)` on `job`. */
  function WaitFor(job: Job, target: string, timeout: nat, observe: nat -> Poll): (w: Waited)
    ensures w.outcome.SpecError? <==> target !in ValidTargets
    ensures w.outcome.SpecError? ==>
      w.outcome.spec == SpecificationError("status", InvalidWaitStatus) && w.refreshes == 0 && !w.warned
    ensures w.warned <==> target in ValidTargets && target == "stopped" && IsTrainingType(job.Type())
    ensures w.outcome == ImmediateOk <==> target in ValidTargets && Reached(job, target)
    ensures w.outcome == ImmediateOk ==> w.refreshes == 0
    ensures w.refreshes <= RetryCount(timeout)
    ensures w.last == Replay(job, observe, 0, w.refreshes)
    ensures w.outcome.Timeout? ==>
      w.outcome.target == target && w.refreshes == RetryCount(timeout)
      && forall i :: 0 <= i < w.refreshes ==> Pending(target, observe(i))
    ensures w.outcome.Ok? || w.outcome.JobFailed? || w.outcome.ArchivedGone? || w.outcome.Propagated? ==>
      && 0 < w.refreshes
      && forall i :: 0 <= i < w.refreshes - 1 ==> Pending(target, observe(i))
    ensures w.outcome.Ok? ==>
      observe(w.refreshes - 1) == Refreshed(w.outcome.job.snapshot) && Reached(w.outcome.job, target)
      && w.last == w.outcome.job
    ensures w.outcome.JobFailed? ==>
      observe(w.refreshes - 1) == Refreshed(w.outcome.job.snapshot) && w.outcome.job.Status() == Str("failed")
      && w.last == w.outcome.job
    ensures w.outcome.ArchivedGone? ==>
      target == "archived" && observe(w.refreshes - 1).Raised? && observe(w.refreshes - 1).error.status == 404
    ensures w.outcome.Propagated? ==>
      observe(w.refreshes - 1) == Raised(w.outcome.apiError)
      && !(target == "archived" && w.outcome.apiError.status == 404)
  {
    if target !in ValidTargets then
      Waited(SpecError(SpecificationError("status", InvalidWaitStatus)), 0, false, job)
    else
      var warned := IsTrainingType(job.Type()) && target == "stopped";
      if Reached(job, target) then Waited(ImmediateOk, 0, warned, job)
      else
        var (outcome, refreshes, last) := PollLoop(target, RetryCount(timeout), 0, job, observe);
        Waited(outcome, refreshes, warned, last)
  }

  /** The loop as the source writes it, refreshing the job in place; it
      computes what `WaitFor` defines. */
  method RunWaitFor(job: Job, target: string, timeout: nat, observe: nat -> Poll) returns (w: Waited)
    ensures w == WaitFor(job, target, timeout, observe)
  {
    if target !in ValidTargets {
      return Waited(SpecError(SpecificationError("status", InvalidWaitStatus)), 0, false, job);
    }
    var warned := IsTrainingType(job.Type()) && target == "stopped";
    if Reached(job, target) {
      return Waited(ImmediateOk, 0, warned, job);
    }
    var retries := RetryCount(timeout);
    var count := 0;
    var current := job;
    while count < retries
      invariant count <= retries
      invariant PollLoop(target, retries, count, current, observe) == PollLoop(target, retries, 0, job, observe)
    {
      match observe(count) {
        case Raised(e) =>
          if target == "archived" && e.status == 404 {
            return Waited(ArchivedGone, count + 1, warned, current);
          }
          return Waited(Propagated(e), count + 1, warned, current);
        case Refreshed(response) =>
          current := Refresh(current, response);
          if Reached(current, target) {
            return Waited(Ok(current), count + 1, warned, current);
          } else if current.Status() == Str("failed") {
            return Waited(JobFailed(current), count + 1, warned, current);
          }
          count := count + 1;
      }
    }
    return Waited(Timeout(target), count, warned, current);
  }

  /** A wait that neither starts at its target nor is rejected times out
      exactly when every poll the budget allows comes back pending. */
  lemma TimeoutIffEveryPollPending(job: Job, target: string, timeout: nat, observe: nat -> Poll)
    requires target in ValidTargets && !Reached(job, target)
    ensures WaitFor(job, target, timeout, observe).outcome.Timeout? <==>
      forall i :: 0 <= i < RetryCount(timeout) ==> Pending(target, observe(i))
  {
    var w := WaitFor(job, target, timeout, observe);
    if !w.outcome.Timeout? {
      assert !Pending(target, observe(w.refreshes - 1));
    }
  }

  /** The loop never looks past the last poll of its budget. */
  lemma {:induction false} PollLoopReadsOnlyBudget(target: string, retries: nat, count: nat, current: Job,
                                                   o1: nat -> Poll, o2: nat -> Poll)
    requires count <= retries
    requires forall i :: count <= i < retries ==> o1(i) == o2(i)
    ensures PollLoop(target, retries, count, current, o1) == PollLoop(target, retries, count, current, o2)
    decreases retries - count
  {
    if count < retries {
      var p := o1(count);
      assert p == o2(count);
      var next := Step(current, p);
      PollLoopReadsOnlyBudget(target, retries, count + 1, next, o1, o2);
      var r1 := PollLoop(target, retries, count, current, o1);
      var r2 := PollLoop(target, retries, count, current, o2);
      match p {
        case Raised(e) =>
          assert r1 == r2;
        case Refreshed(response) =>
          assert r1 == r2;
      }
    }
  }

  /** Polls that all return the job's own snapshot leave it as it was. */
  lemma {:induction false} ReplayOfUnchangedJob(job: Job, observe: nat -> Poll, lo: nat, hi: nat)
    requires lo <= hi
    requires forall i :: lo <= i < hi ==> observe(i) == Refreshed(job.snapshot)
    ensures Replay(job, observe, lo, hi) == job
    decreases hi - lo
  {
    if lo < hi {
      assert Step(job, observe(lo)) == job;
      ReplayOfUnchangedJob(job, observe, lo + 1, hi);
    }
  }

  /** When the last poll replayed was a successful refresh, the caller's
      job is exactly what that refresh returned. */
  lemma {:induction false} ReplayEndsAtLastRefresh(current: Job, observe: nat -> Poll, lo: nat, hi: nat)
    requires lo < hi && observe(hi - 1).Refreshed?
    ensures Replay(current, observe, lo, hi) == Job(observe(hi - 1).response)
    decreases hi - lo
  {
    if lo + 1 < hi {
      ReplayEndsAtLastRefresh(Step(current, observe(lo)), observe, lo + 1, hi);
    }
  }

  /** After a timeout the caller's job holds the snapshot of the last
      refresh (every poll was a pending refresh), or is untouched when the
      budget allowed no poll. */
  lemma TimeoutLeavesLastSnapshot(job: Job, target: string, timeout: nat, observe: nat -> Poll)
    requires WaitFor(job, target, timeout, observe).outcome.Timeout?
    ensures
      var w := WaitFor(job, target, timeout, observe);
      && (w.refreshes == 0 ==> w.last == job)
      && (w.refreshes > 0 ==> observe(w.refreshes - 1).Refreshed? && w.last == Job(observe(w.refreshes - 1).response))
  {
    var w := WaitFor(job, target, timeout, observe);
    if w.refreshes > 0 {
      assert Pending(target, observe(w.refreshes - 1));
      ReplayEndsAtLastRefresh(job, observe, 0, w.refreshes);
    }
  }

  /** At most `ceil(timeout / 5)` refreshes are made: poll results beyond
      that budget cannot change the outcome. */
  lemma WaitForReadsOnlyBudget(job: Job, target: string, timeout: nat, o1: nat -> Poll, o2: nat -> Poll)
    requires forall i :: 0 <= i < RetryCount(timeout) ==> o1(i) == o2(i)
    ensures WaitFor(job, target, timeout, o1) == WaitFor(job, target, timeout, o2)
  {
    PollLoopReadsOnlyBudget(target, RetryCount(timeout), 0, job, o1, o2);
  }

  /** With a 30 second timeout, a job that never leaves `new` is refreshed
      six times and the wait then times out naming its target. */
  lemma ThirtySecondsIsSixPolls(job: Job, target: string)
    requires target in ValidTargets && job.Status() == Str("new")
    ensures
      var observe := (k: nat) => Refreshed(job.snapshot);
      WaitFor(job, target, 30, observe) == Waited(Timeout(target), 6, target == "stopped" && IsTrainingType(job.Type()), job)
  {
    var observe := (k: nat) => Refreshed(job.snapshot);
    assert RetryCount(30) == 6;
    assert !Reached(job, target);
    TimeoutIffEveryPollPending(job, target, 30, observe);
    ReplayOfUnchangedJob(job, observe, 0, 6);
  }

  /** A poll that reports `failed` aborts the wait whatever the target. */
  lemma FailedAbortsAnyTarget(job: Job, target: string, timeout: nat, observe: nat -> Poll)
    requires target in ValidTargets && !Reached(job, target) && timeout > 0
    requires observe(0).Refreshed? && Get(observe(0).response, "status") == Str("failed")
    ensures WaitFor(job, target, timeout, observe).outcome == JobFailed(Job(observe(0).response))
    ensures WaitFor(job, target, timeout, observe).refreshes == 1
  {
    assert !Pending(target, observe(0));
  }

  /** While awaiting `archived`, a 404 is the archived state: the wait ends
      successfully with nothing returned. Any other error status is re-raised.
      Either way the caller's job keeps its snapshot. */
  lemma NotFoundWhileArchiving(job: Job, timeout: nat, observe: nat -> Poll)
    requires !Reached(job, "archived") && timeout > 0 && observe(0).Raised?
    ensures observe(0).error.status == 404 ==>
      WaitFor(job, "archived", timeout, observe) == Waited(ArchivedGone, 1, false, job)
    ensures observe(0).error.status != 404 ==>
      WaitFor(job, "archived", timeout, observe) == Waited(Propagated(observe(0).error), 1, false, job)
  {
    assert !Pending("archived", observe(0));
  }

  /** A training job reported `stopped` already counts as `finished`, and
      `finished` is not the deprecated target, so nothing is polled or warned. */
  lemma StoppedTrainingJobIsFinished(job: Job, timeout: nat, observe: nat -> Poll)
    requires IsTrainingType(job.Type()) && job.Status() == Str("stopped")
    ensures WaitFor(job, "finished", timeout, observe) == Waited(ImmediateOk, 0, false, job)
    ensures WaitFor(job, "stopped", timeout, observe) == Waited(ImmediateOk, 0, true, job)
  {
  }
}
