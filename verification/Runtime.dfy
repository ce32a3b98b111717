/** The Redis runtime of one workflow: the workflow hash, one hash per job, the successor
    lists and the three sorted sets, restricted to the keys of that workflow. */
module Runtime {
  import opened Basics
  import opened Dag

  datatype WorkflowStatus =
    | WfAdmitted | WfReady | WfRunning | WfCompleted | WfFailed | WfCanceled

  datatype JobStatus =
    | Pending | Ready | Queued | PendingExecution | Running
    | RetryDelay | Completed | Failed | Aborted | Canceled

  datatype Job = Job(
    status: JobStatus,
    remaining: int,
    priority: int,
    retryCount: int,
    maxRetries: int,
    timeoutSec: int,
    startTime: Option<int>)

  datatype Workflow = Workflow(
    status: WorkflowStatus,
    total: int,
    maxConcurrent: int,
    reserved: int,
    pending: int,
    completed: int,
    failed: int,
    maxRunTime: int,
    startTime: Option<int>)

  /** Sorted sets map members to scores. */
  type Zset = map<JobId, int>

  datatype Store = Store(
    wf: Workflow,
    jobs: map<JobId, Job>,
    successors: map<JobId, seq<JobId>>,
    waiting: Zset,
    queue: Zset,
    retries: Zset)

  predicate IsTerminal(st: JobStatus) {
    st == Completed || st == Failed || st == Aborted
  }

  /** The statuses that hold one of the workflow's execution slots. */
  predicate IsActive(st: JobStatus) {
    st == Queued || st == PendingExecution || st == Running
  }

  predicate IsWaitingToRun(st: JobStatus) {
    st == Pending || st == RetryDelay || st == Ready || st == Queued
  }

  function Released(reserved: int): int {
    if reserved > 0 then reserved - 1 else reserved
  }

  /** A missing or empty timestamp reads as zero. */
  function TimeOrZero(t: Option<int>): int {
    match t case None => 0 case Some(v) => v
  }

  predicate WorkflowExpired(wf: Workflow, now: int) {
    var start := TimeOrZero(wf.startTime);
    start > 0 && wf.maxRunTime > 0 && now - start > wf.maxRunTime
  }

  predicate JobExpired(job: Job, now: int) {
    var start := TimeOrZero(job.startTime);
    start > 0 && job.timeoutSec > 0 && now - start > job.timeoutSec
  }

  /** The score a priority gets when admission writes it as an unsigned int. */
  function Unsigned32(priority: int): int {
    if priority < 0 then priority + 0x1_0000_0000 else priority
  }

  /** LRANGE of a missing list is empty. */
  function SuccessorsOf(db: Store, j: JobId): seq<JobId> {
    if j in db.successors then db.successors[j] else []
  }

  /** The outcomes ZPOPMAX may have: nothing from an empty set, else an entry of maximal score. */
  ghost predicate IsPop(z: Zset, pick: Option<JobId>) {
    match pick
    case None => z == map[]
    case Some(p) => p in z && forall q :: q in z ==> z[q] <= z[p]
  }

  lemma PopExists(z: Zset) returns (pick: Option<JobId>)
    ensures IsPop(z, pick)
  {
    if z == map[] {
      pick := None;
    } else {
      var p := MaximalEntry(z, z.Keys);
      pick := Some(p);
    }
  }

  /** Move a popped waiting job to the execution queue and reserve its slot. */
  function Promote(db: Store, p: JobId): Store
    requires p in db.waiting
  {
    db.(wf := db.wf.(reserved := db.wf.reserved + 1),
        jobs := if p in db.jobs then db.jobs[p := db.jobs[p].(status := Queued)] else db.jobs,
        waiting := db.waiting - {p},
        queue := db.queue[p := db.waiting[p]])
  }

  /** Promote what ZPOPMAX returned, if a slot is free. */
  function Promoting(db: Store, slotFree: bool, pick: Option<JobId>): (Store, Option<JobId>)
    requires pick.Some? ==> pick.value in db.waiting
  {
    if slotFree && pick.Some? then (Promote(db, pick.value), pick) else (db, None)
  }
}
