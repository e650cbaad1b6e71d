/**
 * The in-memory job tracker of `src/statusTracker.js`: a map of job records
 * updated in place, the id of the most recently created job, guarded status
 * transitions and the progress counters with their time estimate.
 *
 * The clock (`Date.now`, `new Date().toISOString()`) is a parameter `now`
 * in milliseconds, and the job id that `randomUUID` draws is a parameter.
 */
module StatusTracker {
  import opened Wrappers

  datatype JobStatus = Running | Done | Error

  datatype Job = Job(
    jobId: string, jobType: string, status: JobStatus, startedAt: int, finishedAt: Option<int>,
    total: int, processed: int, okCount: int, errorCount: int, skipped: int,
    avgMsPerItem: Option<int>, etaMs: Option<int>, elapsedMs: int, lastError: Option<string>)

  /**
   * `Math.round(e / p)` for a positive `p`: the integer nearest to `e / p`,
   * halves rounded up.
   */
  function RoundDiv(e: int, p: int): (q: int)
    requires p > 0
    ensures p * (2 * q - 1) <= 2 * e < p * (2 * q + 1)
  {
    var q := (2 * e + p) / (2 * p);
    var r := (2 * e + p) % (2 * p);
    assert 2 * e + p == 2 * p * q + r && 0 <= r < 2 * p;
    assert p * (2 * q - 1) == 2 * p * q - p;
    assert p * (2 * q + 1) == 2 * p * q + p;
    q
  }

  /** `Math.max(0, total - processed)`. */
  function RemainingItems(job: Job): (n: int)
    ensures n >= 0 && n >= job.total - job.processed
    ensures n == 0 || n == job.total - job.processed
  {
    if job.total - job.processed < 0 then 0 else job.total - job.processed
  }

  /**
   * `updateEta`: the elapsed time since the start; with no item processed yet
   * the average and the estimate are null, otherwise the estimate is the
   * items left times the rounded average.
   */
  function UpdateEta(job: Job, now: int): (r: Job)
    ensures r.elapsedMs == now - job.startedAt
    ensures job.processed <= 0 ==> r.avgMsPerItem.None? && r.etaMs.None?
    ensures job.processed > 0 ==>
      && r.avgMsPerItem == Some(RoundDiv(now - job.startedAt, job.processed))
      && r.etaMs == Some(RemainingItems(job) * r.avgMsPerItem.value)
    ensures r == job.(elapsedMs := r.elapsedMs, avgMsPerItem := r.avgMsPerItem, etaMs := r.etaMs)
  {
    var elapsed := now - job.startedAt;
    if job.processed > 0 then
      var avg := RoundDiv(elapsed, job.processed);
      job.(elapsedMs := elapsed, avgMsPerItem := Some(avg), etaMs := Some(RemainingItems(job) * avg))
    else
      job.(elapsedMs := elapsed, avgMsPerItem := None, etaMs := None)
  }

  /** The elapsed time, average and estimate are those `updateEta` computes for the job's counters at `now`. */
  predicate EstimateCurrent(j: Job, now: int) {
    && j.elapsedMs == now - j.startedAt
    && (j.processed <= 0 ==> j.avgMsPerItem.None? && j.etaMs.None?)
    && (j.processed > 0 ==>
          && j.avgMsPerItem == Some(RoundDiv(now - j.startedAt, j.processed))
          && j.etaMs == Some(RemainingItems(j) * j.avgMsPerItem.value))
  }

  /** `createJob`'s record: running, zero counters, `Number(total || 0)` items. */
  function NewJob(id: string, jobType: string, total: int, now: int): (j: Job)
    ensures j.jobId == id && j.jobType == jobType && j.status == Running && j.startedAt == now
    ensures j.finishedAt.None? && j.total == total && j.lastError.None?
    ensures j.processed == 0 && j.okCount == 0 && j.errorCount == 0 && j.skipped == 0 && j.elapsedMs == 0
    ensures j.avgMsPerItem.None? && j.etaMs.None?
  {
    Job(id, jobType, Running, now, None, total, 0, 0, 0, 0, None, None, 0, None)
  }

  /** A truthy message: present and non-empty. */
  predicate Truthy(message: Option<string>) {
    message.Some? && message.value != ""
  }

  /** The counters a job keeps consistent: every outcome is for a processed item. */
  predicate CountersConsistent(job: Job) {
    0 <= job.okCount && 0 <= job.errorCount && job.okCount + job.errorCount <= job.processed
  }

  /**
   * `markProgress` on one job: nothing unless it is running; otherwise one
   * more processed item, an ok or an error when `ok` is `true` or `false`
   * (neither when it is absent), the positive skip count added and the last
   * error replaced only by a truthy message.
   */
  function MarkProgressJob(job: Job, ok: Option<bool>, skipped: int, errorMessage: Option<string>, now: int): (r: Job)
    ensures job.status != Running ==> r == job
    ensures job.status == Running ==>
      && r.processed == job.processed + 1
      && r.okCount == job.okCount + (if ok == Some(true) then 1 else 0)
      && r.errorCount == job.errorCount + (if ok == Some(false) then 1 else 0)
      && r.skipped == job.skipped + (if skipped > 0 then skipped else 0)
      && r.lastError == (if Truthy(errorMessage) then errorMessage else job.lastError)
      && r.status == Running && r.total == job.total && r.startedAt == job.startedAt
      && r.jobId == job.jobId && r.jobType == job.jobType && r.finishedAt == job.finishedAt
      && EstimateCurrent(r, now)
  {
    if job.status != Running then job
    else
      var j := job.(processed := job.processed + 1);
      var j := if ok == Some(true) then j.(okCount := j.okCount + 1) else j;
      var j := if ok == Some(false) then j.(errorCount := j.errorCount + 1) else j;
      var j := if skipped > 0 then j.(skipped := j.skipped + skipped) else j;
      var j := if Truthy(errorMessage) then j.(lastError := errorMessage) else j;
      UpdateEta(j, now)
  }

  /** `markSkipped` on one job: nothing unless it is running; otherwise the count (0 when absent) is added. */
  function MarkSkippedJob(job: Job, count: int, now: int): (r: Job)
    ensures job.status != Running ==> r == job
    ensures job.status == Running ==>
      && r.skipped == job.skipped + count
      && r.processed == job.processed && r.okCount == job.okCount && r.errorCount == job.errorCount
      && r.status == Running && r.total == job.total && r.startedAt == job.startedAt
      && r.jobId == job.jobId && r.jobType == job.jobType && r.finishedAt == job.finishedAt
      && r.lastError == job.lastError
      && EstimateCurrent(r, now)
  {
    if job.status != Running then job
    else UpdateEta(job.(skipped := job.skipped + count), now)
  }

  /**
   * `finishJob` on one job: a truthy error message makes it an error from
   * any status; otherwise a running job is done and a finished one keeps its
   * status. The finish time is set and the estimate ends at 0.
   */
  function FinishJobValue(job: Job, errorMessage: Option<string>, now: int): (r: Job)
    ensures Truthy(errorMessage) ==> r.status == Error && r.lastError == errorMessage
    ensures !Truthy(errorMessage) ==> r.status == (if job.status == Running then Done else job.status)
                                      && r.lastError == job.lastError
    ensures r.finishedAt == Some(now) && r.etaMs == Some(0) && r.elapsedMs == now - job.startedAt
    ensures r.processed == job.processed && r.okCount == job.okCount && r.errorCount == job.errorCount
    ensures r.skipped == job.skipped && r.total == job.total
    ensures r.jobId == job.jobId && r.jobType == job.jobType && r.startedAt == job.startedAt
    ensures job.processed <= 0 ==> r.avgMsPerItem.None?
    ensures job.processed > 0 ==> r.avgMsPerItem == Some(RoundDiv(now - job.startedAt, job.processed))
  {
    var j := if Truthy(errorMessage) then job.(status := Error, lastError := errorMessage)
             else if job.status == Running then job.(status := Done)
             else job;
    UpdateEta(j.(finishedAt := Some(now)), now).(etaMs := Some(0))
  }

  /** `okCount + errorCount <= processed` holds for every job at every step. */
  lemma CountersStayConsistent(job: Job, ok: Option<bool>, skipped: int, count: int, errorMessage: Option<string>, now: int)
    requires CountersConsistent(job)
    ensures CountersConsistent(NewJob(job.jobId, job.jobType, job.total, now))
    ensures CountersConsistent(MarkProgressJob(job, ok, skipped, errorMessage, now))
    ensures CountersConsistent(MarkSkippedJob(job, count, now))
    ensures CountersConsistent(FinishJobValue(job, errorMessage, now))
  {
  }

  /** A finished job is no longer running, so later progress and skips leave it as it is. */
  lemma FinishedJobIsFrozen(job: Job, errorMessage: Option<string>, ok: Option<bool>, skipped: int, count: int, now: int, later: int)
    ensures var f := FinishJobValue(job, errorMessage, now);
      && f.status != Running
      && MarkProgressJob(f, ok, skipped, errorMessage, later) == f
      && MarkSkippedJob(f, count, later) == f
  {
  }

  /** Once every item is processed, the estimate is 0 ms. */
  lemma EtaWhenAllProcessed(job: Job, now: int)
    ensures job.processed > 0 && job.total <= job.processed ==> UpdateEta(job, now).etaMs == Some(0)
  {
  }

  /** The tracker's module-level state. */
  class JobTracker {
    var jobs: map<string, Job>
    var currentJobId: Option<string>

    /** Every job keeps consistent counters and the current id names a stored job. */
    ghost predicate Valid()
      reads this
    {
      && (forall id :: id in jobs ==> CountersConsistent(jobs[id]))
      && (currentJobId.Some? ==> currentJobId.value in jobs)
    }

    constructor ()
      ensures jobs == map[] && currentJobId.None? && Valid()
    {
      jobs := map[];
      currentJobId := None;
    }

    /** `createJob`: stores a fresh running job under `id` and makes it the current job. */
    method CreateJob(id: string, jobType: string, total: int, now: int) returns (r: string)
      requires Valid()
      modifies this
      ensures Valid()
      ensures r == id && jobs == old(jobs)[id := NewJob(id, jobType, total, now)] && currentJobId == Some(id)
    {
      jobs := jobs[id := NewJob(id, jobType, total, now)];
      currentJobId := Some(id);
      r := id;
    }

    /** `markProgress`: a missing job is ignored; otherwise the job is replaced by its updated record. */
    method MarkProgress(id: string, ok: Option<bool>, skipped: int, errorMessage: Option<string>, now: int)
      requires Valid()
      modifies this
      ensures Valid() && currentJobId == old(currentJobId)
      ensures id !in old(jobs) ==> jobs == old(jobs)
      ensures id in old(jobs) ==> jobs == old(jobs)[id := MarkProgressJob(old(jobs)[id], ok, skipped, errorMessage, now)]
    {
      if id in jobs {
        var job := jobs[id];
        CountersStayConsistent(job, ok, skipped, 0, errorMessage, now);
        jobs := jobs[id := MarkProgressJob(job, ok, skipped, errorMessage, now)];
      }
    }

    /** `markSkipped`: a missing job is ignored; otherwise the count is added to a running job. */
    method MarkSkipped(id: string, count: int, now: int)
      requires Valid()
      modifies this
      ensures Valid() && currentJobId == old(currentJobId)
      ensures id !in old(jobs) ==> jobs == old(jobs)
      ensures id in old(jobs) ==> jobs == old(jobs)[id := MarkSkippedJob(old(jobs)[id], count, now)]
    {
      if id in jobs {
        var job := jobs[id];
        CountersStayConsistent(job, None, 0, count, None, now);
        jobs := jobs[id := MarkSkippedJob(job, count, now)];
      }
    }

    /** `finishJob`: a missing job is ignored; otherwise it is closed. */
    method FinishJob(id: string, errorMessage: Option<string>, now: int)
      requires Valid()
      modifies this
      ensures Valid() && currentJobId == old(currentJobId)
      ensures id !in old(jobs) ==> jobs == old(jobs)
      ensures id in old(jobs) ==> jobs == old(jobs)[id := FinishJobValue(old(jobs)[id], errorMessage, now)]
    {
      if id in jobs {
        var job := jobs[id];
        CountersStayConsistent(job, None, 0, 0, errorMessage, now);
        jobs := jobs[id := FinishJobValue(job, errorMessage, now)];
      }
    }

    /** `getJob`: the stored job, or null. */
    method GetJob(id: string) returns (r: Option<Job>)
      ensures r.Some? <==> id in jobs
      ensures r.Some? ==> r.value == jobs[id]
    {
      r := if id in jobs then Some(jobs[id]) else None;
    }

    /** `getCurrentJob`: the most recently created job, or null before the first one. */
    method GetCurrentJob() returns (r: Option<Job>)
      requires Valid()
      ensures r.Some? <==> currentJobId.Some?
      ensures r.Some? ==> r.value == jobs[currentJobId.value]
    {
      if currentJobId.None? {
        return None;
      }
      r := if currentJobId.value in jobs then Some(jobs[currentJobId.value]) else None;
    }
  }
}
