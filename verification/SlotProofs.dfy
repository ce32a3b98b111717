/** Execution slots: what each script does to the jobs that hold a slot and to the counter
    `reserved_execution_slots`. */
module SlotProofs {
  import opened Basics
  import opened Dag
  import opened Runtime
  import opened WorkflowScripts
  import opened JobScripts
  import opened Invariants
  import opened TokenSteps
  import opened ScriptSteps

  /** Slots in use and the counter moved by the same amount, within the limit. */
  ghost predicate Balanced(db: Store, db': Store) {
    && db'.wf.maxConcurrent == db.wf.maxConcurrent
    && |Active(db'.jobs)| - |Active(db.jobs)| == db'.wf.reserved - db.wf.reserved
    && (db.wf.reserved <= db.wf.maxConcurrent ==> db'.wf.reserved <= db'.wf.maxConcurrent)
  }

  ghost predicate WaitingHasSlot(db: Store) {
    db.waiting != map[] && 1 <= db.wf.maxConcurrent ==> 1 <= db.wf.reserved
  }

  lemma ActiveSame(jobs: map<JobId, Job>, jobs': map<JobId, Job>)
    requires jobs'.Keys == jobs.Keys
    requires forall k :: k in jobs ==> (IsActive(jobs'[k].status) <==> IsActive(jobs[k].status))
    ensures Active(jobs') == Active(jobs)
  {
  }

  /** Only `j` stops holding a slot. */
  lemma ActiveDrop(jobs: map<JobId, Job>, jobs': map<JobId, Job>, j: JobId)
    requires jobs'.Keys == jobs.Keys && j in jobs && IsActive(jobs[j].status) && !IsActive(jobs'[j].status)
    requires forall k :: k in jobs && k != j ==> (IsActive(jobs'[k].status) <==> IsActive(jobs[k].status))
    ensures |Active(jobs')| == |Active(jobs)| - 1
  {
    assert Active(jobs') == Active(jobs) - {j};
  }

  /** Only `j` starts to hold a slot. */
  lemma ActiveAdd(jobs: map<JobId, Job>, jobs': map<JobId, Job>, j: JobId)
    requires jobs'.Keys == jobs.Keys && j in jobs && !IsActive(jobs[j].status) && IsActive(jobs'[j].status)
    requires forall k :: k in jobs && k != j ==> (IsActive(jobs'[k].status) <==> IsActive(jobs[k].status))
    ensures |Active(jobs')| == |Active(jobs)| + 1
  {
    assert Active(jobs') == Active(jobs) + {j};
  }

  lemma ActiveHolder(jobs: map<JobId, Job>, j: JobId)
    requires j in jobs && IsActive(jobs[j].status)
    ensures |Active(jobs)| >= 1
  {
    assert j in Active(jobs);
  }

  lemma PromotingBalanced(db: Store, slotFree: bool, pick: Option<JobId>)
    requires Zsets(db) && (pick.Some? ==> pick.value in db.waiting)
    requires slotFree ==> db.wf.reserved < db.wf.maxConcurrent
    ensures Balanced(db, Promoting(db, slotFree, pick).0)
  {
    if slotFree && pick.Some? {
      ActiveAdd(db.jobs, Promote(db, pick.value).jobs, pick.value);
    }
  }

  /** Offering a freed slot to the waiting jobs leaves none waiting or a slot reserved. */
  lemma PromotingServes(db: Store, slotFree: bool, pick: Option<JobId>)
    requires IsPop(db.waiting, pick) && slotFree && 0 <= db.wf.reserved
    ensures WaitingHasSlot(Promoting(db, slotFree, pick).0)
  {
  }

  lemma SuccessBalanced(db: Store, j: JobId)
    requires j in db.jobs && db.jobs[j].status == Running && NoDup(SuccessorsOf(db, j)) && SlotsBounded(db)
    ensures var db1 := AfterSuccess(db, j);
      Balanced(db, db1) && db1.wf.reserved == db.wf.reserved - 1 < db1.wf.maxConcurrent && 0 <= db1.wf.reserved
  {
    ActiveHolder(db.jobs, j);
    SuccessPointwise(db, j);
    ActiveDrop(db.jobs, AfterSuccess(db, j).jobs, j);
  }

  lemma ParkBalanced(db: Store, j: JobId, count: int, retryAt: int)
    requires j in db.jobs && db.jobs[j].status == Running && SlotsBounded(db)
    ensures var db1 := ParkRetry(db, j, count, retryAt);
      Balanced(db, db1) && db1.wf.reserved == db.wf.reserved - 1 < db1.wf.maxConcurrent && 0 <= db1.wf.reserved
  {
    ActiveHolder(db.jobs, j);
    ActiveDrop(db.jobs, ParkRetry(db, j, count, retryAt).jobs, j);
  }

  lemma BalancedTrans(a: Store, b: Store, c: Store)
    requires Balanced(a, b) && Balanced(b, c)
    ensures Balanced(a, c)
  {
  }

  lemma AppliedSuccessSlots(db: Store, j: JobId, pick: Option<JobId>)
    requires Zsets(db) && j in db.jobs && db.jobs[j].status == Running && NoDup(SuccessorsOf(db, j))
    requires SlotsBounded(db) && IsPop(AfterSuccess(db, j).waiting, pick)
    ensures var db' := Promoting(AfterSuccess(db, j), SuccessPromotes(db), pick).0;
      Balanced(db, db') && (!CompletesWorkflow(db.wf) ==> WaitingHasSlot(db'))
  {
    var db1 := AfterSuccess(db, j);
    SuccessBalanced(db, j);
    SuccessZsets(db, j);
    PromotingBalanced(db1, SuccessPromotes(db), pick);
    BalancedTrans(db, db1, Promoting(db1, SuccessPromotes(db), pick).0);
    if !CompletesWorkflow(db.wf) {
      PromotingServes(db1, SuccessPromotes(db), pick);
    }
  }

  lemma ScheduleRetrySlots(db: Store, j: JobId, count: int, retryAt: int, pick: Option<JobId>)
    requires Zsets(db) && j in db.jobs && db.jobs[j].status == Running
    requires SlotsBounded(db) && IsPop(db.waiting, pick)
    ensures var db' := ScheduleRetry(db, j, count, retryAt, pick).0;
      Balanced(db, db') && (db.wf.status == WfRunning ==> WaitingHasSlot(db'))
  {
    var db1 := ParkRetry(db, j, count, retryAt);
    ParkBalanced(db, j, count, retryAt);
    ParkBelongs(db, j, count, retryAt);
    PromotingBalanced(db1, RetryPromotes(db), pick);
    BalancedTrans(db, db1, Promoting(db1, RetryPromotes(db), pick).0);
    if db.wf.status == WfRunning {
      PromotingServes(db1, RetryPromotes(db), pick);
    }
  }

  /** A failure gives back at most the slots it frees. */
  lemma CompleteFailedSlots(db: Store, j: JobId, count: int, ids: seq<JobId>)
    requires j in db.jobs && SlotsBounded(db)
    requires db.wf.status == WfRunning ==> IsActive(db.jobs[j].status)
    ensures SlotsBounded(CompleteFailed(db, j, count, ids).0)
  {
    var db' := CompleteFailed(db, j, count, ids).0;
    FailurePointwise(db, j, count, ids);
    assert Active(db'.jobs) <= Active(db.jobs) - {j};
    SubsetCard(Active(db'.jobs), Active(db.jobs) - {j});
    if IsActive(db.jobs[j].status) {
      assert j in Active(db.jobs);
    }
  }

  lemma RetryAppliesSlots(db: Store, j: JobId, pick: Option<JobId>)
    requires Zsets(db) && RetryApplies(db, j) && db.jobs[j].status == RetryDelay && j !in db.retries
    requires SlotsBounded(db) && IsPop(RetryToWaiting(db, j).waiting, pick)
    ensures var db' := PromoteRetry(db, j, pick).0; Balanced(db, db') && WaitingHasSlot(db')
  {
    var slotFree := db.wf.reserved < db.wf.maxConcurrent;
    if slotFree && db.waiting == map[] {
      ActiveAdd(db.jobs, RetryToQueue(db, j).jobs, j);
    } else {
      var db1 := RetryToWaiting(db, j);
      RetryToWaitingBelongs(db, j);
      ActiveSame(db.jobs, db1.jobs);
      PromotingBalanced(db1, slotFree, pick);
      BalancedTrans(db, db1, Promoting(db1, slotFree, pick).0);
      if slotFree { PromotingServes(db1, slotFree, pick); }
    }
  }

  lemma AbortedRetrySlots(db: Store, j: JobId, pick: Option<JobId>)
    requires j in db.jobs && (db.jobs[j].status == RetryDelay || db.jobs[j].status == Aborted) && !RetryApplies(db, j)
    ensures Balanced(db, PromoteRetry(db, j, pick).0)
  {
    ActiveSame(db.jobs, PromoteRetry(db, j, pick).0.jobs);
  }

  lemma TryStartSlots(db: Store, j: JobId, now: int)
    requires j in db.jobs && db.jobs[j].status == PendingExecution && SlotsBounded(db)
    ensures var (db', r) := TryStart(db, j, now);
      && SlotsBounded(db') && db'.wf.reserved == db.wf.reserved
      && (HasStarted(r) ==> Active(db'.jobs) == Active(db.jobs))
  {
    var db' := TryStart(db, j, now).0;
    StartEffect(db, j, now);
    assert Active(db'.jobs) <= Active(db.jobs);
    SubsetCard(Active(db'.jobs), Active(db.jobs));
  }
}
