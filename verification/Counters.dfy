/** The workflow's other two counters: pending_jobs and failed_jobs. */
module Counters {
  import opened Basics
  import opened Dag
  import opened Runtime
  import opened WorkflowScripts
  import opened JobScripts
  import opened Protocol
  import opened Invariants
  import opened InitialProofs
  import opened Effects
  import opened TokenSteps
  import opened ScriptSteps
  import opened DependencyProofs
  import opened Preservation
  import opened Moves
  import opened Runs
  import opened OutcomeTheorems

  // ---------------------------------------------------------------- pending_jobs

  /** Until the workflow fails, pending_jobs is the number of PENDING jobs. */
  ghost predicate PendingExact(db: Store) {
    db.wf.status != WfFailed ==> db.wf.pending == |WithStatus(db.jobs, Pending)|
  }

  /** The step leaves every PENDING job PENDING and adds none. */
  ghost predicate KeepsPending(db: Store, db': Store) {
    && db'.wf.pending == db.wf.pending && db'.jobs.Keys == db.jobs.Keys
    && (db.wf.status == WfFailed ==> db'.wf.status == WfFailed)
    && forall k :: k in db.jobs ==> (db'.jobs[k].status == Pending <==> db.jobs[k].status == Pending)
  }

  lemma PendingKept(db: Store, db': Store)
    requires PendingExact(db) && KeepsPending(db, db')
    ensures PendingExact(db')
  {
    assert WithStatus(db'.jobs, Pending) == WithStatus(db.jobs, Pending);
  }

  lemma PromotingPending(db: Store, slotFree: bool, pick: Option<JobId>)
    requires Zsets(db) && (pick.Some? ==> pick.value in db.waiting)
    ensures KeepsPending(db, Promoting(db, slotFree, pick).0)
  {
  }

  lemma ReleasedWerePending(db: Store, j: JobId, k: JobId)
    requires j in db.jobs && db.jobs[j].status == Running && NoDup(SuccessorsOf(db, j))
    ensures k in SuccessRelease(db, j).ready ==> k in WithStatus(db.jobs, Pending)
    ensures k in WithStatus(AfterSuccess(db, j).jobs, Pending) <==>
              k in WithStatus(db.jobs, Pending) && k !in SuccessRelease(db, j).ready
  {
    SuccessPointwise(db, j);
    ReleaseAllReady(Release(db.jobs[j := db.jobs[j].(status := Completed)], db.waiting, db.wf.pending, []), SuccessorsOf(db, j));
  }

  lemma ReleasedOnce(db: Store, j: JobId)
    requires j in db.jobs && NoDup(SuccessorsOf(db, j))
    ensures var ready := SuccessRelease(db, j).ready;
      NoDup(ready) && (|ready| <= db.wf.pending ==> AfterSuccess(db, j).wf.pending == db.wf.pending - |ready|)
  {
    ReleaseAllReady(Release(db.jobs[j := db.jobs[j].(status := Completed)], db.waiting, db.wf.pending, []), SuccessorsOf(db, j));
  }

  /** The successor loop takes off pending_jobs exactly the jobs it turns READY. */
  lemma ReleasePending(db: Store, j: JobId)
    requires j in db.jobs && db.jobs[j].status == Running && NoDup(SuccessorsOf(db, j))
    requires db.wf.pending == |WithStatus(db.jobs, Pending)|
    ensures AfterSuccess(db, j).wf.pending == |WithStatus(AfterSuccess(db, j).jobs, Pending)|
  {
    var ready, pending := SuccessRelease(db, j).ready, WithStatus(db.jobs, Pending);
    var left := WithStatus(AfterSuccess(db, j).jobs, Pending);
    forall k ensures (k in ready ==> k in pending) && (k in left <==> k in pending && k !in ready) {
      ReleasedWerePending(db, j, k);
    }
    ReleasedOnce(db, j);
    SetAfterList(pending, ready, left);
  }

  lemma SetAfterList(pending: set<JobId>, ready: seq<JobId>, left: set<JobId>)
    requires NoDup(ready)
    requires forall k :: (k in ready ==> k in pending) && (k in left <==> k in pending && k !in ready)
    ensures |ready| <= |pending| && |left| == |pending| - |ready|
  {
    ElemsCard(ready);
    SubsetCard(Elems(ready), pending);
    assert left == pending - Elems(ready);
    DifferenceCard(pending, Elems(ready));
  }

  lemma SuccessPending(db: Store, j: JobId, now: int, pick: Option<JobId>)
    requires Zsets(db) && PendingExact(db) && j in db.jobs && db.jobs[j].status == Running && NoDup(SuccessorsOf(db, j))
    requires SuccessApplies(db, j, now) ==> IsPop(AfterSuccess(db, j).waiting, pick)
    ensures PendingExact(CompleteSuccessful(db, j, now, pick).0)
  {
    if SuccessApplies(db, j, now) {
      AppliedSuccess(db, j, now, pick);
      ReleasePending(db, j);
      SuccessZsets(db, j);
      PromotingPending(AfterSuccess(db, j), SuccessPromotes(db), pick);
      PendingKept(AfterSuccess(db, j), Promoting(AfterSuccess(db, j), SuccessPromotes(db), pick).0);
    } else {
      RefusedSuccess(db, j, now, pick);
    }
  }

  lemma FailurePending(db: Store, j: JobId, retryCount: int, ids: seq<JobId>)
    requires PendingExact(db) && j in db.jobs && db.jobs[j].status != Pending
    ensures PendingExact(CompleteFailed(db, j, retryCount, ids).0)
  {
    if db.wf.status != WfRunning {
      PendingKept(db, CompleteFailed(db, j, retryCount, ids).0);
    }
  }

  lemma ScheduleRetryPending(db: Store, j: JobId, retryCount: int, retryAt: int, pick: Option<JobId>)
    requires Zsets(db) && PendingExact(db) && j in db.jobs && db.jobs[j].status == Running && IsPop(db.waiting, pick)
    ensures PendingExact(ScheduleRetry(db, j, retryCount, retryAt, pick).0)
  {
    var db1 := ParkRetry(db, j, retryCount, retryAt);
    PendingKept(db, db1);
    ParkZsets(db, j, retryCount, retryAt);
    PromotingPending(db1, RetryPromotes(db), pick);
    PendingKept(db1, Promoting(db1, RetryPromotes(db), pick).0);
  }

  lemma PromoteRetryPending(db: Store, j: JobId, pick: Option<JobId>)
    requires Zsets(db) && PendingExact(db) && j in db.jobs && j !in db.retries
    requires db.jobs[j].status == RetryDelay || db.jobs[j].status == Aborted
    requires RetryApplies(db, j) ==> IsPop(RetryToWaiting(db, j).waiting, pick)
    ensures PendingExact(PromoteRetry(db, j, pick).0)
  {
    if RetryApplies(db, j) && !(db.wf.reserved < db.wf.maxConcurrent && db.waiting == map[]) {
      var db1 := RetryToWaiting(db, j);
      RetryToWaitingBelongs(db, j);
      PendingKept(db, db1);
      PromotingPending(db1, db.wf.reserved < db.wf.maxConcurrent, pick);
      PendingKept(db1, PromoteRetry(db, j, pick).0);
    } else {
      PendingKept(db, PromoteRetry(db, j, pick).0);
    }
  }

  lemma HandleFailurePending(s: State, t: nat, now: int, retryAt: int, pick: Option<JobId>)
    requires Enabled(s, HandleFailure(t, now, retryAt, pick)) && Zsets(s.db) && Custody(s) && PendingExact(s.db)
    ensures PendingExact(Apply(s, HandleFailure(t, now, retryAt, pick)).db)
  {
    SoleHolder(s, t);
    var j := s.tokens[t].job;
    var count := RetryCountAfter(s.db.jobs[j], s.tokens[t].phase.outcome);
    if TakesRetry(s, t, now) {
      ScheduleRetryPending(s.db, j, count, retryAt, pick);
    } else {
      FailurePending(s.db, j, count, s.roster);
    }
  }

  lemma StartPending(db: Store, j: JobId, now: int)
    requires PendingExact(db) && j in db.jobs && db.jobs[j].status == PendingExecution
    ensures PendingExact(TryStart(db, j, now).0)
  {
    StartEffect(db, j, now);
    PendingKept(db, TryStart(db, j, now).0);
  }

  lemma TokenStepPending(s: State, step: Step)
    requires Enabled(s, step) && Custody(s) && PendingExact(s.db)
    requires !step.HandleSuccess? && !step.HandleFailure? && !step.HandleRetry?
    ensures PendingExact(Apply(s, step).db)
  {
    if !step.Pop? && !step.PopRetry? { SoleHolder(s, step.tok); }
    if step.StartJob? {
      StartPending(s.db, s.tokens[step.tok].job, step.now);
    } else {
      PendingKept(s.db, Apply(s, step).db);
    }
  }

  lemma HandleSuccessPending(g: Graph, s: State, t: nat, now: int, pick: Option<JobId>)
    requires Enabled(s, HandleSuccess(t, now, pick)) && Zsets(s.db) && Custody(s) && PendingExact(s.db)
    requires s.db.jobs.Keys == g.Keys && Dependencies(g, s.db)
    ensures PendingExact(AfterHandleSuccess(s, t, now, pick).db)
  {
    SoleHolder(s, t);
    HolderLists(g, s, t);
    SuccessPending(s.db, s.tokens[t].job, now, pick);
  }

  lemma HandleRetryPending(s: State, t: nat, pick: Option<JobId>)
    requires Enabled(s, HandleRetry(t, pick)) && Zsets(s.db) && Custody(s) && PendingExact(s.db)
    ensures PendingExact(AfterHandleRetry(s, t, pick).db)
  {
    SoleHolder(s, t);
    PromoteRetryPending(s.db, s.tokens[t].job, pick);
  }

  lemma StepPending(g: Graph, s: State, step: Step)
    requires Enabled(s, step) && Zsets(s.db) && Custody(s) && s.db.jobs.Keys == g.Keys && Dependencies(g, s.db)
    requires PendingExact(s.db)
    ensures PendingExact(Apply(s, step).db)
  {
    match step
    case HandleSuccess(t, now, pick) => HandleSuccessPending(g, s, t, now, pick);
    case HandleFailure(t, now, retryAt, pick) => HandleFailurePending(s, t, now, retryAt, pick);
    case HandleRetry(t, pick) => HandleRetryPending(s, t, pick);
    case _ => TokenStepPending(s, step);
  }

  /** In every run, until the workflow fails, pending_jobs is the number of PENDING jobs. */
  lemma {:induction false} PendingIsCounted(g: Graph, h: Hypotheses, r: Run)
    requires IsRun(g, h, r)
    ensures PendingExact(Last(r).db)
  {
    if r.Then? {
      PendingIsCounted(g, h, r.before);
      RunReachable(g, h, r.before);
      StepPending(g, Last(r.before), r.step);
    }
  }

  // ---------------------------------------------------------------- failed_jobs

  /** The step is the terminal failure of an attempt. */
  ghost predicate IsTerminalFailure(s: State, step: Step)
    requires Enabled(s, step)
  {
    step.HandleFailure? && !TakesRetry(s, step.tok, step.now)
  }

  /** The jobs whose terminal failure was handled in the run. */
  ghost function Reported(g: Graph, h: Hypotheses, r: Run): set<JobId>
    requires IsRun(g, h, r)
  {
    match r
    case Admitted(_) => {}
    case Then(before, step, _) =>
      Reported(g, h, before) + if IsTerminalFailure(Last(before), step) then {Last(before).tokens[step.tok].job} else {}
  }

  lemma FailureStepFailed(s: State, t: nat, now: int, retryAt: int, pick: Option<JobId>)
    requires Enabled(s, HandleFailure(t, now, retryAt, pick))
    ensures Apply(s, HandleFailure(t, now, retryAt, pick)).db.wf.failed
         == s.db.wf.failed + if TakesRetry(s, t, now) then 0 else 1
  {
  }

  lemma SuccessStepFailed(s: State, t: nat, now: int, pick: Option<JobId>)
    requires Enabled(s, HandleSuccess(t, now, pick))
    ensures AfterHandleSuccess(s, t, now, pick).db.wf.failed == s.db.wf.failed
  {
  }

  lemma RetryStepFailed(s: State, t: nat, pick: Option<JobId>)
    requires Enabled(s, HandleRetry(t, pick))
    ensures AfterHandleRetry(s, t, pick).db.wf.failed == s.db.wf.failed
  {
  }

  lemma StepFailed(s: State, step: Step)
    requires Enabled(s, step)
    ensures Apply(s, step).db.wf.failed == s.db.wf.failed + if IsTerminalFailure(s, step) then 1 else 0
  {
    match step
    case HandleFailure(t, now, retryAt, pick) => FailureStepFailed(s, t, now, retryAt, pick);
    case HandleSuccess(t, now, pick) => SuccessStepFailed(s, t, now, pick);
    case HandleRetry(t, pick) => RetryStepFailed(s, t, pick);
    case _ =>
  }

  /** A reported job is FAILED or ABORTED, and nobody will report it again. */
  ghost predicate IsReported(s: State, j: JobId) {
    && j in s.db.jobs && IsCasualty(s.db.jobs[j].status)
    && forall t :: t in s.tokens && s.tokens[t].job == j ==> s.tokens[t].phase.MarkingAborted?
  }

  ghost predicate ReportsFit(s: State, reported: set<JobId>) {
    && (forall j {:trigger IsReported(s, j)} :: j in reported ==> IsReported(s, j))
    && WithStatus(s.db.jobs, Failed) <= reported
  }

  lemma OtherReportStays(s: State, s': State, t: nat, j: JobId, k: JobId)
    requires StepShape(s, s', t, j) && k != j && IsReported(s, k)
    ensures IsReported(s', k)
  {
    assert SideEffect(s.db, s'.db, k);
  }

  /** Only the mark of an abort is still to come for a reported job. */
  lemma OwnReportStays(s: State, step: Step)
    requires Enabled(s, step) && Zsets(s.db) && Custody(s) && IsReported(s, StepJob(s, step))
    ensures !IsTerminalFailure(s, step) && IsReported(Apply(s, step), StepJob(s, step))
  {
    if !step.Pop? && !step.PopRetry? {
      SoleHolder(s, step.tok);
      assert step.MarkAborted?;
    }
  }

  lemma NewReport(s: State, step: Step)
    requires Enabled(s, step) && Zsets(s.db) && Custody(s) && IsTerminalFailure(s, step)
    ensures IsReported(Apply(s, step), StepJob(s, step)) && !IsReported(s, StepJob(s, step))
  {
    SoleHolder(s, step.tok);
    HandleFailureMove(s, step.tok, step.now, step.retryAt, step.pick);
  }

  lemma FailureReported(s: State, t: nat, now: int, retryAt: int, pick: Option<JobId>)
    requires Enabled(s, HandleFailure(t, now, retryAt, pick)) && Zsets(s.db) && Custody(s)
    ensures var j, s' := s.tokens[t].job, Apply(s, HandleFailure(t, now, retryAt, pick));
      j in s'.db.jobs && (s'.db.jobs[j].status == Failed <==> !TakesRetry(s, t, now))
  {
    HandleFailureMove(s, t, now, retryAt, pick);
  }

  lemma OnlyReportsFail(g: Graph, s: State, step: Step, j: JobId)
    requires Enabled(s, step) && Inv(g, s) && j in s.db.jobs && s.db.jobs[j].status != Failed
    ensures j in Apply(s, step).db.jobs
    ensures Apply(s, step).db.jobs[j].status == Failed ==> IsTerminalFailure(s, step) && j == StepJob(s, step)
  {
    StepJobMove(g, s, step, j);
    MovesAreOneWay(step, j == StepJob(s, step), s.db.jobs[j].status, Apply(s, step).db.jobs[j].status);
    if step.HandleFailure? { FailureReported(s, step.tok, step.now, step.retryAt, step.pick); }
  }

  lemma ReportStays(s: State, step: Step, k: JobId)
    requires Enabled(s, step) && Zsets(s.db) && Custody(s) && StepShape(s, Apply(s, step), step.tok, StepJob(s, step))
    requires IsReported(s, k)
    ensures IsReported(Apply(s, step), k)
  {
    if k == StepJob(s, step) {
      OwnReportStays(s, step);
    } else {
      OtherReportStays(s, Apply(s, step), step.tok, StepJob(s, step), k);
    }
  }

  lemma ReportsStay(g: Graph, s: State, step: Step, reported: set<JobId>)
    requires Enabled(s, step) && Inv(g, s) && ReportsFit(s, reported)
    ensures forall k {:trigger IsReported(Apply(s, step), k)} :: k in reported ==> IsReported(Apply(s, step), k)
  {
    StepShaped(g, s, step);
    forall k | k in reported ensures IsReported(Apply(s, step), k) {
      assert IsReported(s, k);
      ReportStays(s, step, k);
    }
  }

  lemma FailedAreReported(g: Graph, s: State, step: Step, reported: set<JobId>)
    requires Enabled(s, step) && Inv(g, s) && ReportsFit(s, reported)
    ensures forall k :: k in WithStatus(Apply(s, step).db.jobs, Failed) ==>
      k in reported || (IsTerminalFailure(s, step) && k == StepJob(s, step))
  {
    StepShaped(g, s, step);
    forall k | k in WithStatus(Apply(s, step).db.jobs, Failed)
      ensures k in reported || (IsTerminalFailure(s, step) && k == StepJob(s, step))
    {
      if k !in WithStatus(s.db.jobs, Failed) { OnlyReportsFail(g, s, step, k); }
    }
  }

  lemma NotYetReported(s: State, reported: set<JobId>, j: JobId)
    requires ReportsFit(s, reported) && !IsReported(s, j)
    ensures j !in reported
  {
  }

  lemma OneMoreReport(s: State, reported: set<JobId>, j: JobId)
    requires IsReported(s, j) && j !in reported
    requires forall k {:trigger IsReported(s, k)} :: k in reported ==> IsReported(s, k)
    requires forall k :: k in WithStatus(s.db.jobs, Failed) ==> k in reported || k == j
    ensures ReportsFit(s, reported + {j}) && |reported + {j}| == |reported| + 1
  {
  }

  lemma ReportingStep(g: Graph, s: State, step: Step, reported: set<JobId>)
    requires Enabled(s, step) && Inv(g, s) && ReportsFit(s, reported) && IsTerminalFailure(s, step)
    ensures ReportsFit(Apply(s, step), reported + {StepJob(s, step)})
    ensures |reported + {StepJob(s, step)}| == |reported| + 1
  {
    ReportsStay(g, s, step, reported);
    FailedAreReported(g, s, step, reported);
    NewReport(s, step);
    NotYetReported(s, reported, StepJob(s, step));
    OneMoreReport(Apply(s, step), reported, StepJob(s, step));
  }

  lemma SilentStep(g: Graph, s: State, step: Step, reported: set<JobId>)
    requires Enabled(s, step) && Inv(g, s) && ReportsFit(s, reported) && !IsTerminalFailure(s, step)
    ensures ReportsFit(Apply(s, step), reported)
  {
    ReportsStay(g, s, step, reported);
    FailedAreReported(g, s, step, reported);
  }

  /** Each step reports at most one job, and none twice. */
  lemma StepReports(g: Graph, s: State, step: Step, reported: set<JobId>)
    requires Enabled(s, step) && Inv(g, s) && ReportsFit(s, reported)
    ensures var reported' := reported + if IsTerminalFailure(s, step) then {StepJob(s, step)} else {};
      && ReportsFit(Apply(s, step), reported')
      && |reported'| == |reported| + if IsTerminalFailure(s, step) then 1 else 0
  {
    if IsTerminalFailure(s, step) {
      ReportingStep(g, s, step, reported);
    } else {
      SilentStep(g, s, step, reported);
      assert reported + {} == reported;
    }
  }

  lemma InitialReports(g: Graph, s: State)
    requires Initial(g, s)
    ensures ReportsFit(s, {})
  {
    InitialStatuses(g, s);
  }

  /** In every run failed_jobs is the number of jobs whose terminal failure was handled, each of
      them once: every FAILED job is one of them, and they are all FAILED or ABORTED.  Retries,
      canceled siblings and abandoned jobs do not count. */
  lemma {:induction false} FailuresAreCounted(g: Graph, h: Hypotheses, r: Run)
    requires IsRun(g, h, r)
    ensures Last(r).db.wf.failed == |Reported(g, h, r)|
    ensures WithStatus(Last(r).db.jobs, Failed) <= Reported(g, h, r)
    ensures ReportsFit(Last(r), Reported(g, h, r))
  {
    match r
    case Admitted(s) => InitialReports(g, s);
    case Then(before, step, _) =>
      FailuresAreCounted(g, h, before);
      RunReachable(g, h, before);
      StepReports(g, Last(before), step, Reported(g, h, before));
      StepFailed(Last(before), step);
  }

  /** So failed_jobs lies between the FAILED jobs and the FAILED and ABORTED ones. */
  lemma FailedJobsByStatus(g: Graph, h: Hypotheses, r: Run)
    requires IsRun(g, h, r)
    ensures var jobs := Last(r).db.jobs;
      |WithStatus(jobs, Failed)| <= Last(r).db.wf.failed <= |WithStatus(jobs, Failed)| + |WithStatus(jobs, Aborted)|
  {
    FailuresAreCounted(g, h, r);
    var jobs, reported := Last(r).db.jobs, Reported(g, h, r);
    SubsetCard(WithStatus(jobs, Failed), reported);
    forall j | j in reported ensures j in WithStatus(jobs, Failed) + WithStatus(jobs, Aborted) {
      assert IsReported(Last(r), j);
    }
    SubsetCard(reported, WithStatus(jobs, Failed) + WithStatus(jobs, Aborted));
  }
}
