/** The completion, retry-scheduling and retry-promotion steps: each belongs to the job whose
    record or retry entry is handled. */
module ScriptSteps {
  import opened Basics
  import opened Dag
  import opened Runtime
  import opened WorkflowScripts
  import opened JobScripts
  import opened Protocol
  import opened Invariants
  import opened Effects
  import opened TokenSteps

  lemma PromotingZsets(db: Store, slotFree: bool, pick: Option<JobId>)
    requires Zsets(db) && (pick.Some? ==> pick.value in db.waiting)
    ensures Zsets(Promoting(db, slotFree, pick).0)
  {
  }

  /** Promoting a waiting job afterwards is one more side effect. */
  lemma PromotingBelongs(db: Store, db1: Store, j: JobId, slotFree: bool, pick: Option<JobId>)
    requires BelongsTo(db, db1, j) && Zsets(db1) && (pick.Some? ==> pick.value in db1.waiting)
    ensures var db2 := Promoting(db1, slotFree, pick).0; BelongsTo(db, db2, j) && Zsets(db2)
  {
    var db2 := Promoting(db1, slotFree, pick).0;
    PromotingZsets(db1, slotFree, pick);
    forall k | k in db.jobs && k != j ensures SideEffect(db, db2, k) {
      assert SideEffect(db, db1, k);
    }
  }

  /** The success script, job by job: `j` is COMPLETED, its PENDING successors lose one
      dependency, and those left without any wait with their priority as score. */
  lemma SuccessPointwise(db: Store, j: JobId)
    requires j in db.jobs && NoDup(SuccessorsOf(db, j))
    ensures var db1, succs := AfterSuccess(db, j), SuccessorsOf(db, j);
      && db1.jobs.Keys == db.jobs.Keys
      && db1.jobs[j] == db.jobs[j].(status := Completed)
      && (forall k :: k in db.jobs && k != j ==> db1.jobs[k] == ReleasedJob(db.jobs[k], k in succs))
      && (forall k :: k in db1.waiting <==> k in db.waiting || (k != j && TurnsReady(db.jobs, succs, k)))
      && (forall k :: k in db1.waiting ==>
            db1.waiting[k] == if k != j && TurnsReady(db.jobs, succs, k) then db.jobs[k].priority else db.waiting[k])
  {
    ReleaseAllPointwise(Release(db.jobs[j := db.jobs[j].(status := Completed)], db.waiting, db.wf.pending, []),
                        SuccessorsOf(db, j));
  }

  lemma SuccessZsets(db: Store, j: JobId)
    requires Zsets(db) && j in db.jobs && db.jobs[j].status == Running && NoDup(SuccessorsOf(db, j))
    ensures Zsets(AfterSuccess(db, j))
  {
    SuccessPointwise(db, j);
  }

  lemma SuccessBelongs(db: Store, j: JobId)
    requires Zsets(db) && j in db.jobs && db.jobs[j].status == Running && NoDup(SuccessorsOf(db, j))
    ensures BelongsTo(db, AfterSuccess(db, j), j) && AfterSuccess(db, j).jobs[j].status == Completed
  {
    SuccessPointwise(db, j);
  }

  lemma AppliedSuccessBelongs(db: Store, j: JobId, slotFree: bool, pick: Option<JobId>)
    requires Zsets(db) && j in db.jobs && db.jobs[j].status == Running && NoDup(SuccessorsOf(db, j))
    requires IsPop(AfterSuccess(db, j).waiting, pick)
    ensures var db' := Promoting(AfterSuccess(db, j), slotFree, pick).0;
      Zsets(db') && BelongsTo(db, db', j) && db'.jobs[j].status == Completed
  {
    SuccessZsets(db, j);
    SuccessBelongs(db, j);
    PromotingBelongs(db, AfterSuccess(db, j), j, slotFree, pick);
  }

  lemma HandleSuccessShape(s: State, t: nat, now: int, pick: Option<JobId>)
    requires Zsets(s.db) && Custody(s)
    requires t in s.tokens && s.tokens[t].phase.Handling? && s.tokens[t].phase.outcome.Succeeded?
    requires NoDup(SuccessorsOf(s.db, s.tokens[t].job))
    requires SuccessApplies(s.db, s.tokens[t].job, now) ==> IsPop(AfterSuccess(s.db, s.tokens[t].job).waiting, pick)
    ensures StepShape(s, AfterHandleSuccess(s, t, now, pick), t, s.tokens[t].job)
  {
    SoleHolder(s, t);
    var j := s.tokens[t].job;
    var s' := AfterHandleSuccess(s, t, now, pick);
    if SuccessApplies(s.db, j, now) {
      AppliedSuccessBelongs(s.db, j, SuccessPromotes(s.db), pick);
      DroppedShape(s, s', t);
    } else {
      assert s'.tokens[t].job == j;
      MovedShape(s, s', t);
    }
  }

  // ---------------------------------------------------------------- terminal failure

  /** The failure script, job by job. */
  lemma FailurePointwise(db: Store, j: JobId, count: int, ids: seq<JobId>)
    requires j in db.jobs
    ensures var db1 := CompleteFailed(db, j, count, ids).0;
      && db1.jobs.Keys == db.jobs.Keys
      && db1.jobs[j] == db.jobs[j].(status := Failed, retryCount := count)
      && (forall k :: k in db.jobs && k != j ==>
            db1.jobs[k] == if IsCanceled(db, j, ids, k) then db.jobs[k].(status := Aborted) else db.jobs[k])
  {
    var jobs := MarkFailed(db, j, count).jobs;
    CancelAllPointwise(Cancel(jobs, db.waiting, db.queue, db.retries, []), j, ids);
    assert forall k :: k != j ==> (Cancelable(jobs, j, k) <==> Cancelable(db.jobs, j, k));
  }

  /** Sibling `k` is canceled by the failure of `j`. */
  predicate IsCanceled(db: Store, j: JobId, ids: seq<JobId>, k: JobId) {
    db.wf.status == WfRunning && k in ids && Cancelable(db.jobs, j, k)
  }

  lemma FailureZsetsPointwise(db: Store, j: JobId, count: int, ids: seq<JobId>)
    requires j in db.jobs
    ensures var db1 := CompleteFailed(db, j, count, ids).0;
      && (forall k :: k in db1.waiting <==> k in db.waiting && !IsCanceled(db, j, ids, k))
      && (forall k :: k in db1.queue <==> k in db.queue && !(IsCanceled(db, j, ids, k) && db.jobs[k].status == Queued))
      && (forall k :: k in db1.retries <==> k in db.retries && !(IsCanceled(db, j, ids, k) && db.jobs[k].status == RetryDelay))
      && (forall k :: k in db1.waiting ==> db1.waiting[k] == db.waiting[k])
      && (forall k :: k in db1.queue ==> db1.queue[k] == db.queue[k])
      && (forall k :: k in db1.retries ==> db1.retries[k] == db.retries[k])
  {
    var jobs := MarkFailed(db, j, count).jobs;
    var c := Cancel(jobs, db.waiting, db.queue, db.retries, []);
    CancelAllZsets(c, j, ids);
    if db.wf.status == WfRunning {
      assert forall k :: Hit(c, j, ids, k) <==> IsCanceled(db, j, ids, k);
    }
  }

  /** No job of the workflow is queued or parked twice, so a held job is in no sorted set. */
  lemma FailureZsets(db: Store, j: JobId, count: int, ids: seq<JobId>)
    requires Zsets(db) && j in db.jobs && !IsWaitingToRun(db.jobs[j].status)
    ensures Zsets(CompleteFailed(db, j, count, ids).0)
  {
    FailurePointwise(db, j, count, ids);
    FailureZsetsPointwise(db, j, count, ids);
  }

  lemma FailureBelongs(db: Store, j: JobId, count: int, ids: seq<JobId>)
    requires Zsets(db) && j in db.jobs && !IsWaitingToRun(db.jobs[j].status)
    ensures BelongsTo(db, CompleteFailed(db, j, count, ids).0, j)
  {
    FailurePointwise(db, j, count, ids);
    FailureZsetsPointwise(db, j, count, ids);
  }

  lemma FailureOwnJob(db: Store, j: JobId, count: int, ids: seq<JobId>)
    requires j in db.jobs
    ensures var db1 := CompleteFailed(db, j, count, ids).0;
      && j in db1.jobs && db1.jobs[j].status == Failed
      && db1.wf.status == (if db.wf.status == WfRunning then WfFailed else db.wf.status)
      && (j in db1.queue ==> j in db.queue) && (j in db1.retries ==> j in db.retries)
  {
    FailurePointwise(db, j, count, ids);
    FailureZsetsPointwise(db, j, count, ids);
  }

  lemma TerminalFailureShape(s: State, t: nat)
    requires Zsets(s.db) && Custody(s)
    requires t in s.tokens && s.tokens[t].phase.Handling? && !s.tokens[t].phase.outcome.Succeeded?
    requires s.tokens[t].job in s.db.jobs
    ensures StepShape(s, AfterTerminalFailure(s, t), t, s.tokens[t].job)
  {
    SoleHolder(s, t);
    var j, s' := s.tokens[t].job, AfterTerminalFailure(s, t);
    var count := RetryCountAfter(s.db.jobs[j], s.tokens[t].phase.outcome);
    FailureZsets(s.db, j, count, s.roster);
    FailureBelongs(s.db, j, count, s.roster);
    FailureOwnJob(s.db, j, count, s.roster);
    if s.tokens[t].phase.outcome.AbortedRun? {
      assert s'.tokens[t] == Token(j, MarkingAborted);
      MovedShape(s, s', t);
    } else {
      DroppedShape(s, s', t);
    }
  }

  // ---------------------------------------------------------------- retries

  lemma ParkZsets(db: Store, j: JobId, count: int, retryAt: int)
    requires Zsets(db) && j in db.jobs && db.jobs[j].status == Running
    ensures Zsets(ParkRetry(db, j, count, retryAt))
  {
  }

  lemma ParkBelongs(db: Store, j: JobId, count: int, retryAt: int)
    requires Zsets(db) && j in db.jobs && db.jobs[j].status == Running
    ensures var db1 := ParkRetry(db, j, count, retryAt); Zsets(db1) && BelongsTo(db, db1, j)
  {
    ParkZsets(db, j, count, retryAt);
  }

  lemma ScheduleRetryShape(s: State, t: nat, retryAt: int, pick: Option<JobId>)
    requires Zsets(s.db) && Custody(s)
    requires t in s.tokens && s.tokens[t].phase.Handling? && s.tokens[t].phase.outcome.FailedRun?
    requires s.tokens[t].job in s.db.jobs && IsPop(s.db.waiting, pick)
    ensures StepShape(s, AfterScheduleRetry(s, t, retryAt, pick), t, s.tokens[t].job)
  {
    SoleHolder(s, t);
    var j := s.tokens[t].job;
    var count := RetryCountAfter(s.db.jobs[j], s.tokens[t].phase.outcome);
    ParkBelongs(s.db, j, count, retryAt);
    PromotingBelongs(s.db, ParkRetry(s.db, j, count, retryAt), j, RetryPromotes(s.db), pick);
    DroppedShape(s, AfterScheduleRetry(s, t, retryAt, pick), t);
  }

  lemma RetryToWaitingBelongs(db: Store, j: JobId)
    requires Zsets(db) && j in db.jobs && db.jobs[j].status == RetryDelay && j !in db.retries
    ensures var db1 := RetryToWaiting(db, j); Zsets(db1) && BelongsTo(db, db1, j)
  {
  }

  lemma RetryToQueueZsets(db: Store, j: JobId)
    requires Zsets(db) && j in db.jobs && db.jobs[j].status == RetryDelay && j !in db.retries
    ensures Zsets(RetryToQueue(db, j))
  {
  }

  lemma RetryToQueueBelongs(db: Store, j: JobId)
    requires Zsets(db) && j in db.jobs && db.jobs[j].status == RetryDelay && j !in db.retries
    ensures var db1 := RetryToQueue(db, j); Zsets(db1) && BelongsTo(db, db1, j)
  {
    RetryToQueueZsets(db, j);
  }

  /** What retry promotion leaves behind for its own job. */
  predicate RetrySettles(db': Store, j: JobId)
    requires j in db'.jobs
  {
    var st := db'.jobs[j].status;
    st == Aborted || st == Ready || (st == Queued && j in db'.queue)
  }

  lemma RetryAppliesBelongs(db: Store, j: JobId, pick: Option<JobId>)
    requires Zsets(db) && RetryApplies(db, j) && db.jobs[j].status == RetryDelay && j !in db.retries
    requires IsPop(RetryToWaiting(db, j).waiting, pick)
    ensures var db' := PromoteRetry(db, j, pick).0; Zsets(db') && BelongsTo(db, db', j) && RetrySettles(db', j)
  {
    if db.wf.reserved < db.wf.maxConcurrent && db.waiting == map[] {
      RetryToQueueBelongs(db, j);
    } else {
      RetryToWaitingBelongs(db, j);
      PromotingBelongs(db, RetryToWaiting(db, j), j, db.wf.reserved < db.wf.maxConcurrent, pick);
    }
  }

  /** A popped retry entry ends READY, QUEUED (and then in the queue) or ABORTED. */
  lemma PromoteRetryBelongs(db: Store, j: JobId, pick: Option<JobId>)
    requires Zsets(db) && j in db.jobs && (db.jobs[j].status == RetryDelay || db.jobs[j].status == Aborted)
    requires j !in db.queue && j !in db.retries
    requires RetryApplies(db, j) ==> IsPop(RetryToWaiting(db, j).waiting, pick)
    ensures var db' := PromoteRetry(db, j, pick).0; Zsets(db') && BelongsTo(db, db', j) && RetrySettles(db', j)
  {
    if RetryApplies(db, j) {
      RetryAppliesBelongs(db, j, pick);
    }
  }

  /** Retry promotion never settles a job of a running workflow, and touches no completion counter. */
  lemma PromoteRetryStatus(db: Store, j: JobId, pick: Option<JobId>)
    requires j in db.jobs && (db.jobs[j].status == RetryDelay || db.jobs[j].status == Aborted)
    requires RetryApplies(db, j) ==> IsPop(RetryToWaiting(db, j).waiting, pick)
    ensures var db' := PromoteRetry(db, j, pick).0;
      && db'.wf == db.wf.(reserved := db'.wf.reserved)
      && j in db'.jobs
      && (IsTerminal(db'.jobs[j].status) <==> db.wf.status != WfRunning || db.jobs[j].status == Aborted)
  {
  }

  lemma HandleRetryShape(s: State, t: nat, pick: Option<JobId>)
    requires Zsets(s.db) && Custody(s) && t in s.tokens && s.tokens[t].phase.RetryPopped?
    requires RetryApplies(s.db, s.tokens[t].job) ==> IsPop(RetryToWaiting(s.db, s.tokens[t].job).waiting, pick)
    ensures StepShape(s, AfterHandleRetry(s, t, pick), t, s.tokens[t].job)
  {
    SoleHolder(s, t);
    PromoteRetryBelongs(s.db, s.tokens[t].job, pick);
    DroppedShape(s, AfterHandleRetry(s, t, pick), t);
  }
}
