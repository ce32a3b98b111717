/** The claim script run by schedulers, the start script run by workers and the three retry
    scripts, as functions of the store. */
module JobScripts {
  import opened Basics
  import opened Dag
  import opened Runtime

  /** Claim a popped job, unless it was canceled after the pop. */
  function Claim(db: Store, j: JobId): (Store, bool) {
    if j in db.jobs && (db.jobs[j].status == Ready || db.jobs[j].status == Queued) then
      (db.(jobs := db.jobs[j := db.jobs[j].(status := PendingExecution)]), true)
    else
      (db, false)
  }

  datatype StartResult =
    | FirstToStart | Started | CanceledByWorkflowState | AlreadyCanceled
    | ViolationJobStatus | ViolationWorkflowStatus | ViolationWorkflowTime

  predicate HasStarted(r: StartResult) {
    r == FirstToStart || r == Started
  }

  function TryStart(db: Store, j: JobId, now: int): (Store, StartResult) {
    if j in db.jobs && db.jobs[j].status == Aborted then
      (db, AlreadyCanceled)
    else if j !in db.jobs || db.jobs[j].status != PendingExecution then
      (db.(wf := db.wf.(status := WfFailed)), ViolationJobStatus)
    else
      var abortedJobs := db.jobs[j := db.jobs[j].(status := Aborted)];
      var runningJobs := db.jobs[j := db.jobs[j].(status := Running, startTime := Some(now))];
      match db.wf.status
      case WfReady =>
        if db.wf.startTime.Some? then
          (db.(jobs := abortedJobs, wf := db.wf.(status := WfFailed)), ViolationWorkflowTime)
        else
          (db.(jobs := runningJobs, wf := db.wf.(status := WfRunning, startTime := Some(now))), FirstToStart)
      case WfRunning => (db.(jobs := runningJobs), Started)
      case WfFailed => (db.(jobs := abortedJobs), CanceledByWorkflowState)
      case WfCanceled => (db.(jobs := abortedJobs), CanceledByWorkflowState)
      case _ => (db.(jobs := abortedJobs, wf := db.wf.(status := WfFailed)), ViolationWorkflowStatus)
  }

  /** Park the job and give its slot back, before a waiting job may take it. */
  function ParkRetry(db: Store, j: JobId, retryCount: int, retryAt: int): Store
    requires j in db.jobs
  {
    db.(wf := db.wf.(reserved := Released(db.wf.reserved)),
        jobs := db.jobs[j := db.jobs[j].(status := RetryDelay, retryCount := retryCount, startTime := None)],
        retries := db.retries[j := retryAt])
  }

  predicate RetryPromotes(db: Store) {
    db.wf.status == WfRunning && Released(db.wf.reserved) < db.wf.maxConcurrent
  }

  function ScheduleRetry(db: Store, j: JobId, retryCount: int, retryAt: int, pick: Option<JobId>)
    : (Store, Option<JobId>)
    requires j in db.jobs
    requires pick.Some? ==> pick.value in db.waiting
  {
    Promoting(ParkRetry(db, j, retryCount, retryAt), RetryPromotes(db), pick)
  }

  /** The job with the earliest due time leaves the delay set. */
  ghost predicate IsDue(z: Zset, j: JobId, now: int) {
    j in z && z[j] <= now && forall k :: k in z ==> z[j] <= z[k]
  }

  /** The retried job joins the waiting jobs. */
  function RetryToWaiting(db: Store, j: JobId): Store
    requires j in db.jobs
  {
    db.(jobs := db.jobs[j := db.jobs[j].(status := Ready)],
        waiting := db.waiting[j := db.jobs[j].priority])
  }

  /** With a free slot and nobody waiting the retried job is queued directly. */
  function RetryToQueue(db: Store, j: JobId): Store
    requires j in db.jobs
  {
    db.(wf := db.wf.(reserved := db.wf.reserved + 1),
        jobs := db.jobs[j := db.jobs[j].(status := Queued)],
        queue := db.queue[j := db.jobs[j].priority])
  }

  predicate RetryApplies(db: Store, j: JobId) {
    && j in db.jobs && db.wf.status == WfRunning
    && (db.jobs[j].status == RetryDelay || db.jobs[j].status == Ready)
  }

  /** `pick` is what ZPOPMAX returns once the retried job waits with the others. */
  function PromoteRetry(db: Store, j: JobId, pick: Option<JobId>): (Store, Option<JobId>)
    requires RetryApplies(db, j) && pick.Some? ==> pick.value in RetryToWaiting(db, j).waiting
  {
    if j !in db.jobs then (db, None)
    else if db.wf.status != WfRunning then
      (db.(jobs := db.jobs[j := db.jobs[j].(status := Aborted)]), None)
    else if db.jobs[j].status != RetryDelay && db.jobs[j].status != Ready then (db, None)
    else if db.wf.reserved < db.wf.maxConcurrent && db.waiting == map[] then
      (RetryToQueue(db, j), Some(j))
    else
      Promoting(RetryToWaiting(db, j), db.wf.reserved < db.wf.maxConcurrent, pick)
  }
}
