/** Dependency counting: completing a job takes it off the count of exactly its successors,
    and a job is released when and only when its last dependency completes. */
module DependencyProofs {
  import opened Basics
  import opened Dag
  import opened Runtime
  import opened WorkflowScripts
  import opened JobScripts
  import opened Protocol
  import opened Invariants
  import opened TokenSteps
  import opened ScriptSteps

  /** Nobody completes, nobody is released, and the successor lists stay. */
  ghost predicate DepsFrame(db: Store, db': Store) {
    && db'.jobs.Keys == db.jobs.Keys && db'.successors == db.successors
    && (forall k :: k in db.jobs ==> DepsFrameJob(db.jobs[k], db'.jobs[k]))
  }

  predicate DepsFrameJob(a: Job, b: Job) {
    && (b.status == Completed <==> a.status == Completed)
    && (b.status == Pending ==> a.status == Pending && a.remaining == b.remaining)
    && (IsCleared(b.status) ==> IsCleared(a.status))
  }

  lemma DepsKept(g: Graph, db: Store, db': Store)
    requires db.jobs.Keys == g.Keys && Dependencies(g, db) && DepsFrame(db, db')
    ensures Dependencies(g, db')
  {
    forall j | j in g ensures DepsCounted(g, db'.jobs, j) {
      assert DepsCounted(g, db.jobs, j) && DepsFrameJob(db.jobs[j], db'.jobs[j]);
      assert forall d :: d in db.jobs ==> DepsFrameJob(db.jobs[d], db'.jobs[d]);
      assert Unmet(g, db'.jobs, j) == Unmet(g, db.jobs, j);
    }
    forall k | k in g && db'.jobs[k].status != Completed ensures ListsSuccessors(g, db', k) {
      assert DepsFrameJob(db.jobs[k], db'.jobs[k]);
      assert ListsSuccessors(g, db, k);
    }
  }

  /** Completing `j` removes `j` from the unmet dependencies of every job and nothing else. */
  lemma UnmetAfterSuccess(g: Graph, db: Store, j: JobId, k: JobId)
    requires db.jobs.Keys == g.Keys && Closed(g) && j in g && k in g && NoDup(SuccessorsOf(db, j))
    ensures Unmet(g, AfterSuccess(db, j).jobs, k) == Unmet(g, db.jobs, k) - {j}
  {
    SuccessPointwise(db, j);
    var jobs' := AfterSuccess(db, j).jobs;
    forall d | d in g[k] && d != j ensures jobs'[d].status == Completed <==> db.jobs[d].status == Completed {
      assert d in g;
    }
  }

  lemma SuccessCounts(g: Graph, db: Store, j: JobId, k: JobId)
    requires db.jobs.Keys == g.Keys && Closed(g) && Dependencies(g, db)
    requires j in g && k in g && db.jobs[j].status == Running
    ensures k in AfterSuccess(db, j).jobs && DepsCounted(g, AfterSuccess(db, j).jobs, k)
  {
    assert ListsSuccessors(g, db, j);
    SuccessPointwise(db, j);
    UnmetAfterSuccess(g, db, j, k);
    assert DepsCounted(g, db.jobs, k);
    assert k in SuccessorsOf(db, j) <==> j in Unmet(g, db.jobs, k);
  }

  lemma SuccessDependencies(g: Graph, db: Store, j: JobId)
    requires db.jobs.Keys == g.Keys && Closed(g) && Dependencies(g, db)
    requires j in g && db.jobs[j].status == Running
    ensures AfterSuccess(db, j).jobs.Keys == g.Keys && Dependencies(g, AfterSuccess(db, j))
  {
    assert ListsSuccessors(g, db, j);
    SuccessPointwise(db, j);
    var db1 := AfterSuccess(db, j);
    forall k | k in g ensures DepsCounted(g, db1.jobs, k) {
      SuccessCounts(g, db, j, k);
    }
    forall k | k in g && db1.jobs[k].status != Completed ensures ListsSuccessors(g, db1, k) {
      assert k != j;
      assert ListsSuccessors(g, db, k);
      assert SuccessorsOf(db1, k) == SuccessorsOf(db, k);
    }
  }

  lemma PromotingFrame(db: Store, slotFree: bool, pick: Option<JobId>)
    requires Zsets(db) && (pick.Some? ==> pick.value in db.waiting)
    ensures DepsFrame(db, Promoting(db, slotFree, pick).0)
  {
  }

  lemma AppliedSuccessDependencies(g: Graph, db: Store, j: JobId, slotFree: bool, pick: Option<JobId>)
    requires db.jobs.Keys == g.Keys && Closed(g) && Dependencies(g, db) && Zsets(db)
    requires j in g && db.jobs[j].status == Running && IsPop(AfterSuccess(db, j).waiting, pick)
    ensures var db' := Promoting(AfterSuccess(db, j), slotFree, pick).0;
      db'.jobs.Keys == g.Keys && Dependencies(g, db')
  {
    assert ListsSuccessors(g, db, j);
    SuccessDependencies(g, db, j);
    SuccessZsets(db, j);
    PromotingFrame(AfterSuccess(db, j), slotFree, pick);
    DepsKept(g, AfterSuccess(db, j), Promoting(AfterSuccess(db, j), slotFree, pick).0);
  }

  /** A success record that is refused changes no job. */
  lemma RefusedSuccess(db: Store, j: JobId, now: int, pick: Option<JobId>)
    requires j in db.jobs && db.jobs[j].status == Running && !SuccessApplies(db, j, now)
    ensures var (db', reply) := CompleteSuccessful(db, j, now, pick);
      db' == db.(wf := db.wf.(status := db'.wf.status)) && !reply.Applied?
  {
  }

  lemma AppliedSuccess(db: Store, j: JobId, now: int, pick: Option<JobId>)
    requires SuccessApplies(db, j, now) && IsPop(AfterSuccess(db, j).waiting, pick)
    ensures var (db', reply) := CompleteSuccessful(db, j, now, pick);
      && db' == Promoting(AfterSuccess(db, j), SuccessPromotes(db), pick).0
      && reply.Applied? && reply.workflowCompleted == CompletesWorkflow(db.wf)
  {
  }

  /** Whatever the success script does, the dependency counts stay exact. */
  lemma CompleteSuccessfulDependencies(g: Graph, db: Store, j: JobId, now: int, pick: Option<JobId>)
    requires db.jobs.Keys == g.Keys && Closed(g) && Dependencies(g, db) && Zsets(db)
    requires j in g && db.jobs[j].status == Running
    requires SuccessApplies(db, j, now) ==> IsPop(AfterSuccess(db, j).waiting, pick)
    ensures var db' := CompleteSuccessful(db, j, now, pick).0; db'.jobs.Keys == g.Keys && Dependencies(g, db')
  {
    var db' := CompleteSuccessful(db, j, now, pick).0;
    if SuccessApplies(db, j, now) {
      AppliedSuccess(db, j, now, pick);
      AppliedSuccessDependencies(g, db, j, SuccessPromotes(db), pick);
    } else {
      RefusedSuccess(db, j, now, pick);
      DepsKept(g, db, db');
    }
  }

  lemma ScheduleRetryFrame(db: Store, j: JobId, count: int, retryAt: int, pick: Option<JobId>)
    requires Zsets(db) && j in db.jobs && db.jobs[j].status == Running && IsPop(db.waiting, pick)
    ensures DepsFrame(db, ScheduleRetry(db, j, count, retryAt, pick).0)
  {
    var db1 := ParkRetry(db, j, count, retryAt);
    OneJobFrame(db, db1, j);
    ParkZsets(db, j, count, retryAt);
    PromotingFrame(db1, RetryPromotes(db), pick);
    DepsFrameTrans(db, db1, Promoting(db1, RetryPromotes(db), pick).0);
  }

  lemma CompleteFailedFrame(db: Store, j: JobId, count: int, ids: seq<JobId>)
    requires j in db.jobs && db.jobs[j].status != Completed
    ensures DepsFrame(db, CompleteFailed(db, j, count, ids).0)
  {
    FailurePointwise(db, j, count, ids);
  }

  lemma DepsFrameTrans(a: Store, b: Store, c: Store)
    requires DepsFrame(a, b) && DepsFrame(b, c)
    ensures DepsFrame(a, c)
  {
    forall k | k in a.jobs ensures DepsFrameJob(a.jobs[k], c.jobs[k]) {
      assert DepsFrameJob(a.jobs[k], b.jobs[k]) && DepsFrameJob(b.jobs[k], c.jobs[k]);
    }
  }

  /** Setting a job that was cleared to another status that is neither COMPLETED nor PENDING. */
  lemma OneJobFrame(db: Store, db': Store, j: JobId)
    requires j in db.jobs && db'.jobs.Keys == db.jobs.Keys && db'.successors == db.successors
    requires forall k :: k in db.jobs && k != j ==> db'.jobs[k] == db.jobs[k]
    requires db.jobs[j].status != Completed && db'.jobs[j].status != Completed && db'.jobs[j].status != Pending
    requires IsCleared(db'.jobs[j].status) ==> IsCleared(db.jobs[j].status)
    ensures DepsFrame(db, db')
  {
  }

  lemma PromoteRetryFrame(db: Store, j: JobId, pick: Option<JobId>)
    requires Zsets(db) && j in db.jobs && (db.jobs[j].status == RetryDelay || db.jobs[j].status == Aborted)
    requires j !in db.retries
    requires RetryApplies(db, j) ==> IsPop(RetryToWaiting(db, j).waiting, pick)
    ensures DepsFrame(db, PromoteRetry(db, j, pick).0)
  {
    if !RetryApplies(db, j) {
      RefusedRetryFrame(db, j, pick);
    } else if db.wf.reserved < db.wf.maxConcurrent && db.waiting == map[] {
      OneJobFrame(db, RetryToQueue(db, j), j);
    } else {
      WaitingRetryFrame(db, j, db.wf.reserved < db.wf.maxConcurrent, pick);
    }
  }

  lemma RefusedRetryFrame(db: Store, j: JobId, pick: Option<JobId>)
    requires j in db.jobs && (db.jobs[j].status == RetryDelay || db.jobs[j].status == Aborted) && !RetryApplies(db, j)
    ensures DepsFrame(db, PromoteRetry(db, j, pick).0)
  {
    OneJobFrame(db, PromoteRetry(db, j, pick).0, j);
  }

  lemma WaitingRetryFrame(db: Store, j: JobId, slotFree: bool, pick: Option<JobId>)
    requires Zsets(db) && j in db.jobs && db.jobs[j].status == RetryDelay && j !in db.retries
    requires IsPop(RetryToWaiting(db, j).waiting, pick)
    ensures DepsFrame(db, Promoting(RetryToWaiting(db, j), slotFree, pick).0)
  {
    RetryToWaitingBelongs(db, j);
    OneJobFrame(db, RetryToWaiting(db, j), j);
    PromotingFrame(RetryToWaiting(db, j), slotFree, pick);
    DepsFrameTrans(db, RetryToWaiting(db, j), Promoting(RetryToWaiting(db, j), slotFree, pick).0);
  }

  lemma TryStartFrame(db: Store, j: JobId, now: int)
    requires j in db.jobs && db.jobs[j].status == PendingExecution
    ensures DepsFrame(db, TryStart(db, j, now).0)
  {
    StartEffect(db, j, now);
    OneJobFrame(db, TryStart(db, j, now).0, j);
  }

  lemma SameJobsFrame(db: Store, db': Store)
    requires db'.jobs == db.jobs && db'.successors == db.successors
    ensures DepsFrame(db, db')
  {
  }

  lemma ClaimFrame(db: Store, j: JobId)
    ensures j in db.jobs && (db.jobs[j].status == Queued || db.jobs[j].status == Aborted) ==> DepsFrame(db, Claim(db, j).0)
  {
  }

  lemma MarkAbortedFrame(s: State, t: nat)
    requires t in s.tokens && s.tokens[t].job in s.db.jobs && s.db.jobs[s.tokens[t].job].status == Failed
    ensures DepsFrame(s.db, AfterMarkAborted(s, t).db)
  {
  }
}
