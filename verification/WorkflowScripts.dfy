/** The two completion scripts of the workflow runtime, as functions of the store, and what
    their loops compute. */
module WorkflowScripts {
  import opened Basics
  import opened Dag
  import opened Runtime

  // ---------------------------------------------------------------- success

  /** What the successor loop of the success script updates. */
  datatype Release = Release(
    jobs: map<JobId, Job>, waiting: Zset, pending: int, ready: seq<JobId>)

  function ReleaseOne(r: Release, k: JobId): Release {
    if k in r.jobs && r.jobs[k].status == Pending then
      var left := r.jobs[k].remaining - 1;
      if left <= 0 then
        Release(r.jobs[k := r.jobs[k].(status := Ready, remaining := 0)],
                r.waiting[k := r.jobs[k].priority],
                if r.pending > 0 then r.pending - 1 else r.pending,
                r.ready + [k])
      else
        r.(jobs := r.jobs[k := r.jobs[k].(remaining := left)])
    else
      r
  }

  function ReleaseAll(r: Release, succs: seq<JobId>): Release {
    if succs == [] then r
    else ReleaseOne(ReleaseAll(r, succs[..|succs| - 1]), succs[|succs| - 1])
  }

  datatype SuccessReply =
    | NotApplied
    | TimedOut
    | Applied(workflowCompleted: bool, promoted: Option<JobId>, ready: seq<JobId>)

  /** The successor loop as started by the success script, once `j` is COMPLETED. */
  function SuccessRelease(db: Store, j: JobId): Release
    requires j in db.jobs
  {
    ReleaseAll(Release(db.jobs[j := db.jobs[j].(status := Completed)], db.waiting, db.wf.pending, []),
               SuccessorsOf(db, j))
  }

  predicate CompletesWorkflow(wf: Workflow) {
    wf.total > 0 && wf.completed + 1 == wf.total
  }

  /** The store after the counters are updated and before a waiting job is promoted. */
  function AfterSuccess(db: Store, j: JobId): Store
    requires j in db.jobs
  {
    var r := SuccessRelease(db, j);
    Store(db.wf.(completed := db.wf.completed + 1,
                 reserved := Released(db.wf.reserved),
                 pending := r.pending,
                 status := if CompletesWorkflow(db.wf) then WfCompleted else db.wf.status),
          r.jobs, db.successors - {j}, r.waiting, db.queue, db.retries)
  }

  /** The script takes effect: the job is not COMPLETED and the workflow runs within its time. */
  predicate SuccessApplies(db: Store, j: JobId, now: int) {
    && j in db.jobs && db.jobs[j].status != Completed
    && db.wf.status == WfRunning && !WorkflowExpired(db.wf, now)
  }

  predicate SuccessPromotes(db: Store) {
    !CompletesWorkflow(db.wf) && Released(db.wf.reserved) < db.wf.maxConcurrent
  }

  function CompleteSuccessful(db: Store, j: JobId, now: int, pick: Option<JobId>): (Store, SuccessReply)
    requires SuccessApplies(db, j, now) && pick.Some? ==> pick.value in AfterSuccess(db, j).waiting
  {
    if j !in db.jobs then (db, NotApplied)
    else if db.jobs[j].status == Completed then (db, Applied(false, None, []))
    else if db.wf.status != WfRunning then (db, NotApplied)
    else if WorkflowExpired(db.wf, now) then (db.(wf := db.wf.(status := WfFailed)), TimedOut)
    else
      var (db', promoted) := Promoting(AfterSuccess(db, j), SuccessPromotes(db), pick);
      (db', Applied(CompletesWorkflow(db.wf), promoted, SuccessRelease(db, j).ready))
  }

  /** The successor loop on a duplicate-free list, job by job: PENDING successors lose one
      dependency and turn READY when none is left; every other job is untouched. */
  lemma {:induction false} ReleaseAllPointwise(r: Release, succs: seq<JobId>)
    requires NoDup(succs)
    ensures var r' := ReleaseAll(r, succs);
      && r'.jobs.Keys == r.jobs.Keys
      && (forall k :: k in r.jobs ==> r'.jobs[k] == ReleasedJob(r.jobs[k], k in succs))
      && (forall k :: k in r'.waiting <==> k in r.waiting || TurnsReady(r.jobs, succs, k))
      && (forall k :: k in r'.waiting ==>
            r'.waiting[k] == if TurnsReady(r.jobs, succs, k) then r.jobs[k].priority else r.waiting[k])
  {
    if succs != [] {
      var init, last := succs[..|succs| - 1], succs[|succs| - 1];
      assert succs == init + [last];
      ReleaseAllPointwise(r, init);
      assert last !in init;
    }
  }

  /** The list reported back holds the released jobs once each, and `pending` drops by their
      number as long as it was large enough. */
  lemma {:induction false} ReleaseAllReady(r: Release, succs: seq<JobId>)
    requires NoDup(succs) && r.ready == []
    ensures var r' := ReleaseAll(r, succs);
      && NoDup(r'.ready)
      && (forall k :: k in r'.ready <==> TurnsReady(r.jobs, succs, k))
      && (|r'.ready| <= r.pending ==> r'.pending == r.pending - |r'.ready|)
  {
    if succs != [] {
      var init, last := succs[..|succs| - 1], succs[|succs| - 1];
      assert succs == init + [last];
      ReleaseAllReady(r, init);
      ReleaseAllPointwise(r, init);
      assert last !in init;
    }
  }

  function ReleasedJob(job: Job, isSuccessor: bool): Job {
    if isSuccessor && job.status == Pending then
      if job.remaining <= 1 then job.(status := Ready, remaining := 0)
      else job.(remaining := job.remaining - 1)
    else job
  }

  predicate TurnsReady(jobs: map<JobId, Job>, succs: seq<JobId>, k: JobId) {
    k in succs && k in jobs && jobs[k].status == Pending && jobs[k].remaining <= 1
  }

  // ---------------------------------------------------------------- terminal failure

  /** What the sibling loop of the failure script updates. */
  datatype Cancel = Cancel(
    jobs: map<JobId, Job>, waiting: Zset, queue: Zset, retries: Zset, canceled: seq<JobId>)

  predicate Cancelable(jobs: map<JobId, Job>, failed: JobId, k: JobId) {
    k != failed && k in jobs && IsWaitingToRun(jobs[k].status)
  }

  function CancelOne(c: Cancel, failed: JobId, k: JobId): Cancel {
    if Cancelable(c.jobs, failed, k) then
      var st := c.jobs[k].status;
      Cancel(c.jobs[k := c.jobs[k].(status := Aborted)],
             c.waiting - {k},
             if st == Queued then c.queue - {k} else c.queue,
             if st == RetryDelay then c.retries - {k} else c.retries,
             c.canceled + [k])
    else
      c
  }

  function CancelAll(c: Cancel, failed: JobId, ids: seq<JobId>): Cancel {
    if ids == [] then c
    else CancelOne(CancelAll(c, failed, ids[..|ids| - 1]), failed, ids[|ids| - 1])
  }

  datatype FailureReply = FailureReply(
    workflowFailed: bool, workflowCompleted: bool, canceled: seq<JobId>)

  /** The failed job is marked first, whatever the workflow status. */
  function MarkFailed(db: Store, j: JobId, retryCount: int): Store
    requires j in db.jobs
  {
    db.(jobs := db.jobs[j := db.jobs[j].(status := Failed, retryCount := retryCount)])
  }

  function FailureCancel(db: Store, j: JobId, retryCount: int, ids: seq<JobId>): Cancel
    requires j in db.jobs
  {
    CancelAll(Cancel(MarkFailed(db, j, retryCount).jobs, db.waiting, db.queue, db.retries, []), j, ids)
  }

  /** `ids` are the workflow's job ids as read from the durable store. */
  function CompleteFailed(db: Store, j: JobId, retryCount: int, ids: seq<JobId>): (Store, FailureReply)
    requires j in db.jobs
  {
    var fails := db.wf.status == WfRunning;
    var c := if fails then FailureCancel(db, j, retryCount, ids)
             else Cancel(MarkFailed(db, j, retryCount).jobs, db.waiting, db.queue, db.retries, []);
    var completed := db.wf.completed + 1 + |c.canceled|;
    var wf := db.wf.(status := if fails then WfFailed else db.wf.status,
                     reserved := if fails then Released(db.wf.reserved) else db.wf.reserved,
                     completed := completed,
                     failed := db.wf.failed + 1);
    (Store(wf, c.jobs, db.successors, c.waiting, c.queue, c.retries),
     FailureReply(fails, db.wf.total > 0 && completed == db.wf.total, c.canceled))
  }

  /** The sibling loop, job by job: every listed job that is waiting to run is ABORTED and
      leaves the sorted set it was in; every other job is untouched. */
  lemma {:induction false} CancelAllPointwise(c: Cancel, failed: JobId, ids: seq<JobId>)
    ensures var c' := CancelAll(c, failed, ids);
      && c'.jobs.Keys == c.jobs.Keys
      && (forall k :: k in c.jobs ==>
            c'.jobs[k] == if k in ids && Cancelable(c.jobs, failed, k) then c.jobs[k].(status := Aborted)
                          else c.jobs[k])
  {
    if ids != [] {
      var init, last := ids[..|ids| - 1], ids[|ids| - 1];
      assert ids == init + [last];
      CancelAllPointwise(c, failed, init);
    }
  }

  ghost predicate Hit(c: Cancel, failed: JobId, ids: seq<JobId>, k: JobId) {
    k in ids && Cancelable(c.jobs, failed, k)
  }

  lemma {:induction false} CancelAllZsets(c: Cancel, failed: JobId, ids: seq<JobId>)
    ensures var c' := CancelAll(c, failed, ids);
      && (forall k :: k in c'.waiting <==> k in c.waiting && !Hit(c, failed, ids, k))
      && (forall k :: k in c'.queue <==> k in c.queue && !(Hit(c, failed, ids, k) && c.jobs[k].status == Queued))
      && (forall k :: k in c'.retries <==> k in c.retries && !(Hit(c, failed, ids, k) && c.jobs[k].status == RetryDelay))
    ensures var c' := CancelAll(c, failed, ids);
      && (forall k :: k in c'.waiting ==> c'.waiting[k] == c.waiting[k])
      && (forall k :: k in c'.queue ==> c'.queue[k] == c.queue[k])
      && (forall k :: k in c'.retries ==> c'.retries[k] == c.retries[k])
  {
    if ids != [] {
      var init, last := ids[..|ids| - 1], ids[|ids| - 1];
      assert ids == init + [last];
      CancelAllZsets(c, failed, init);
      CancelAllPointwise(c, failed, init);
    }
  }

  lemma {:induction false} CancelAllCanceled(c: Cancel, failed: JobId, ids: seq<JobId>)
    requires c.canceled == []
    ensures var c' := CancelAll(c, failed, ids);
      NoDup(c'.canceled) && forall k :: k in c'.canceled <==> k in ids && Cancelable(c.jobs, failed, k)
  {
    if ids != [] {
      var init, last := ids[..|ids| - 1], ids[|ids| - 1];
      assert ids == init + [last];
      CancelAllCanceled(c, failed, init);
      CancelAllPointwise(c, failed, init);
    }
  }
}
