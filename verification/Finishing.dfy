/** Exactly when a run that can go no further has finished its workflow, in terms of what
    happened in the run and with no hypothesis on it. */
module Finishing {
  import opened Basics
  import opened Dag
  import opened Runtime
  import opened WorkflowScripts
  import opened JobScripts
  import opened Protocol
  import opened Invariants
  import opened Effects
  import opened TokenSteps
  import opened DependencyProofs
  import opened Preservation
  import opened HypothesisProofs
  import opened LedgerProofs
  import opened Moves
  import opened Runs
  import opened OutcomeTheorems
  import opened Liveness

  // ---------------------------------------------------------------- the failing step

  /** Some step of the run fails the workflow. */
  ghost predicate HasFailingStep(g: Graph, h: Hypotheses, r: Run)
    requires IsRun(g, h, r)
  {
    r.Then? && (HasFailingStep(g, h, r.before) || IsFailing(Last(r.before), r.step))
  }

  lemma SuccessFailsIff(s: State, t: nat, now: int, pick: Option<JobId>)
    requires Enabled(s, HandleSuccess(t, now, pick)) && Custody(s) && s.db.wf.status != WfFailed
    ensures AfterHandleSuccess(s, t, now, pick).db.wf.status == WfFailed <==> IsFailing(s, HandleSuccess(t, now, pick))
  {
    SoleHolder(s, t);
  }

  lemma FailureFailsIff(s: State, t: nat, now: int, retryAt: int, pick: Option<JobId>)
    requires Enabled(s, HandleFailure(t, now, retryAt, pick)) && Custody(s) && s.db.wf.status != WfFailed
    ensures Apply(s, HandleFailure(t, now, retryAt, pick)).db.wf.status == WfFailed
       <==> IsFailing(s, HandleFailure(t, now, retryAt, pick))
  {
    SoleHolder(s, t);
  }

  lemma StepFailsIff(g: Graph, s: State, step: Step)
    requires Enabled(s, step) && Shape(g, s) && Custody(s) && Lifecycle(s.db) && Counted(s) && s.db.wf.status != WfFailed
    ensures Apply(s, step).db.wf.status == WfFailed <==> IsFailing(s, step)
  {
    if step.HandleSuccess? {
      SuccessFailsIff(s, step.tok, step.now, step.pick);
    } else if step.HandleFailure? {
      FailureFailsIff(s, step.tok, step.now, step.retryAt, step.pick);
    } else {
      OnlyFailureFails(g, s, step);
    }
  }

  /** A workflow is FAILED if and only if, in the run, a failure without a retry was handled while
      it was RUNNING or a success record was handled after its time ran out. */
  lemma {:induction false} FailedIff(g: Graph, h: Hypotheses, r: Run)
    requires IsRun(g, h, r)
    ensures Last(r).db.wf.status == WfFailed <==> HasFailingStep(g, h, r)
  {
    if r.Then? {
      FailedIff(g, h, r.before);
      RunReachable(g, h, r.before);
      if Last(r.before).db.wf.status == WfFailed {
        FailedIsFinal(g, h, r.before, r);
      } else {
        StepFailsIff(g, Last(r.before), r.step);
      }
    }
  }

  // ---------------------------------------------------------------- stranded jobs

  /** The run timed out while some job was PENDING or READY. */
  ghost predicate Stranded(r: Run) {
    r.Then? && (Stranded(r.before) || IsStranding(Last(r.before), r.step))
  }

  predicate IsIdle(st: JobStatus) {
    st == Pending || st == Ready
  }

  /** The same jobs are PENDING or READY. */
  ghost predicate SameIdle(db: Store, db': Store) {
    && db'.jobs.Keys == db.jobs.Keys
    && forall k :: k in db.jobs ==> (IsIdle(db'.jobs[k].status) <==> IsIdle(db.jobs[k].status))
  }

  lemma SameIdleJob(db: Store, db': Store)
    requires SameIdle(db, db')
    ensures HasIdleJob(db') <==> HasIdleJob(db)
  {
    forall k | k in db.jobs ensures IsIdle(db'.jobs[k].status) <==> IsIdle(db.jobs[k].status) {
    }
    if HasIdleJob(db) {
      var k :| k in db.jobs && (db.jobs[k].status == Pending || db.jobs[k].status == Ready);
      assert k in db'.jobs && IsIdle(db'.jobs[k].status);
    }
    if HasIdleJob(db') {
      var k :| k in db'.jobs && (db'.jobs[k].status == Pending || db'.jobs[k].status == Ready);
      assert k in db.jobs && IsIdle(db'.jobs[k].status);
    }
  }

  lemma FailedFailureIdle(s: State, t: nat, now: int, retryAt: int, pick: Option<JobId>)
    requires Enabled(s, HandleFailure(t, now, retryAt, pick)) && Custody(s) && s.db.wf.status == WfFailed
    ensures SameIdle(s.db, Apply(s, HandleFailure(t, now, retryAt, pick)).db)
  {
    SoleHolder(s, t);
    var j := s.tokens[t].job;
    if !TakesRetry(s, t, now) {
      LateFailureIdle(s.db, j, RetryCountAfter(s.db.jobs[j], s.tokens[t].phase.outcome), s.roster);
    }
  }

  lemma LateFailureIdle(db: Store, j: JobId, retryCount: int, ids: seq<JobId>)
    requires j in db.jobs && !IsIdle(db.jobs[j].status) && db.wf.status == WfFailed
    ensures SameIdle(db, CompleteFailed(db, j, retryCount, ids).0)
  {
  }

  lemma FailedStartIdle(db: Store, j: JobId, now: int)
    requires j in db.jobs && db.jobs[j].status == PendingExecution
    ensures SameIdle(db, TryStart(db, j, now).0)
  {
    StartEffect(db, j, now);
  }

  lemma FailedSuccessIdle(s: State, t: nat, now: int, pick: Option<JobId>)
    requires Enabled(s, HandleSuccess(t, now, pick)) && Custody(s) && !SuccessApplies(s.db, s.tokens[t].job, now)
    ensures SameIdle(s.db, AfterHandleSuccess(s, t, now, pick).db)
  {
    SoleHolder(s, t);
    RefusedSuccess(s.db, s.tokens[t].job, now, pick);
  }

  lemma FailedRetryIdle(s: State, t: nat, pick: Option<JobId>)
    requires Enabled(s, HandleRetry(t, pick)) && Custody(s) && s.db.wf.status == WfFailed
    ensures SameIdle(s.db, AfterHandleRetry(s, t, pick).db)
  {
    SoleHolder(s, t);
  }

  /** In a FAILED workflow no job becomes or ceases to be PENDING or READY. */
  lemma FailedStepIdle(s: State, step: Step)
    requires Enabled(s, step) && Custody(s) && s.db.wf.status == WfFailed
    ensures SameIdle(s.db, Apply(s, step).db)
  {
    if step.HandleFailure? {
      FailedFailureIdle(s, step.tok, step.now, step.retryAt, step.pick);
    } else if step.HandleSuccess? {
      FailedSuccessIdle(s, step.tok, step.now, step.pick);
    } else if step.HandleRetry? {
      FailedRetryIdle(s, step.tok, step.pick);
    } else {
      TokenStepIdle(s, step);
    }
  }

  lemma TokenStepIdle(s: State, step: Step)
    requires Enabled(s, step) && Custody(s)
    requires !step.HandleSuccess? && !step.HandleFailure? && !step.HandleRetry?
    ensures SameIdle(s.db, Apply(s, step).db)
  {
    if !step.Pop? && !step.PopRetry? { SoleHolder(s, step.tok); }
    if step.StartJob? { FailedStartIdle(s.db, s.tokens[step.tok].job, step.now); }
  }

  /** The timeout fails the workflow and leaves every job as it is. */
  lemma TimeoutIdle(s: State, t: nat, now: int, pick: Option<JobId>)
    requires Enabled(s, HandleSuccess(t, now, pick)) && Custody(s)
    requires s.db.wf.status != WfFailed && AfterHandleSuccess(s, t, now, pick).db.wf.status == WfFailed
    ensures s.db.wf.status == WfRunning && WorkflowExpired(s.db.wf, now)
    ensures SameIdle(s.db, AfterHandleSuccess(s, t, now, pick).db)
  {
    SoleHolder(s, t);
    FailedSuccessIdle(s, t, now, pick);
  }

  /** The step that fails the workflow leaves an idle job if and only if it is a stranding one. */
  lemma FailingStepIdle(g: Graph, s: State, step: Step)
    requires Enabled(s, step) && Shape(g, s) && Custody(s) && Lifecycle(s.db) && Counted(s)
    requires s.db.wf.status != WfFailed && Apply(s, step).db.wf.status == WfFailed
    ensures HasIdleJob(Apply(s, step).db) <==> IsStranding(s, step)
  {
    if step.HandleSuccess? {
      TimeoutIdle(s, step.tok, step.now, step.pick);
      SameIdleJob(s.db, Apply(s, step).db);
    } else if step.HandleFailure? {
      HandleFailureEmpties(g, s, step.tok, step.now, step.retryAt, step.pick);
    } else {
      OnlyFailureFails(g, s, step);
    }
  }

  lemma StrandingFails(s: State, step: Step)
    requires Enabled(s, step) && Custody(s) && IsStranding(s, step)
    ensures Apply(s, step).db.wf.status == WfFailed
  {
    SoleHolder(s, step.tok);
  }

  /** A FAILED workflow has a PENDING or READY job if and only if its time ran out while some job
      was PENDING or READY; no other workflow was stranded. */
  lemma {:induction false} IdleIffStranded(g: Graph, h: Hypotheses, r: Run)
    requires IsRun(g, h, r)
    ensures Last(r).db.wf.status == WfFailed ==> (HasIdleJob(Last(r).db) <==> Stranded(r))
    ensures Stranded(r) ==> Last(r).db.wf.status == WfFailed
  {
    if r.Then? {
      var s, step := Last(r.before), r.step;
      IdleIffStranded(g, h, r.before);
      RunReachable(g, h, r.before);
      if s.db.wf.status == WfFailed {
        FailedIsFinal(g, h, r.before, r);
        FailedStepIdle(s, step);
        SameIdleJob(s.db, Last(r).db);
      } else {
        if Last(r).db.wf.status == WfFailed { FailingStepIdle(g, s, step); }
        if IsStranding(s, step) { StrandingFails(s, step); }
      }
    }
  }

  // ---------------------------------------------------------------- casualties of a FAILED workflow

  /** A refused success record is about to be handled as an internal failure. */
  ghost predicate HasInternalFailure(s: State) {
    exists t :: t in s.tokens && IsInternalFailure(s.tokens[t].phase)
  }

  predicate IsInternalFailure(p: Phase) {
    p.Handling? && p.outcome == FailedRun(true)
  }

  lemma TimeoutPassesOn(s: State, t: nat, now: int, pick: Option<JobId>)
    requires Enabled(s, HandleSuccess(t, now, pick)) && Custody(s)
    requires s.db.wf.status != WfFailed && AfterHandleSuccess(s, t, now, pick).db.wf.status == WfFailed
    ensures HasInternalFailure(AfterHandleSuccess(s, t, now, pick))
  {
    SoleHolder(s, t);
    var s' := AfterHandleSuccess(s, t, now, pick);
    assert t in s'.tokens && IsInternalFailure(s'.tokens[t].phase);
  }

  /** An internal failure is never retried. */
  lemma InternalFailureFails(s: State, step: Step)
    requires Enabled(s, step) && Zsets(s.db) && Custody(s)
    requires step.HandleFailure? && IsInternalFailure(s.tokens[step.tok].phase)
    ensures HasCasualty(Apply(s, step).db)
  {
    HandleFailureMove(s, step.tok, step.now, step.retryAt, step.pick);
  }

  lemma InternalFailureStays(g: Graph, s: State, step: Step, t: nat)
    requires Enabled(s, step) && Inv(g, s) && t in s.tokens && IsInternalFailure(s.tokens[t].phase)
    ensures HasCasualty(Apply(s, step).db) || HasInternalFailure(Apply(s, step))
  {
    StepShaped(g, s, step);
    if step.tok == t {
      assert step.HandleFailure?;
      InternalFailureFails(s, step);
    } else {
      assert t in Apply(s, step).tokens && Apply(s, step).tokens[t] == s.tokens[t];
    }
  }

  /** With no hypothesis: a FAILED workflow has a casualty, or is about to get one. */
  lemma {:induction false} FailedHasCause(g: Graph, h: Hypotheses, r: Run)
    requires IsRun(g, h, r) && Last(r).db.wf.status == WfFailed
    ensures HasCasualty(Last(r).db) || HasInternalFailure(Last(r))
  {
    if r.Then? {
      var s, step := Last(r.before), r.step;
      RunReachable(g, h, r.before);
      if s.db.wf.status == WfFailed {
        FailedHasCause(g, h, r.before);
        CauseStays(g, s, step);
      } else if step.HandleFailure? {
        FailingStepHasCasualty(g, s, step.tok, step.now, step.retryAt, step.pick);
      } else if step.HandleSuccess? {
        TimeoutPassesOn(s, step.tok, step.now, step.pick);
      } else {
        OnlyFailureFails(g, s, step);
      }
    }
  }

  lemma CauseStays(g: Graph, s: State, step: Step)
    requires Enabled(s, step) && Inv(g, s) && (HasCasualty(s.db) || HasInternalFailure(s))
    ensures HasCasualty(Apply(s, step).db) || HasInternalFailure(Apply(s, step))
  {
    if HasCasualty(s.db) {
      var j :| j in s.db.jobs && IsCasualty(s.db.jobs[j].status);
      CasualtyStays(g, s, step, j);
    } else {
      var t :| t in s.tokens && IsInternalFailure(s.tokens[t].phase);
      InternalFailureStays(g, s, step, t);
    }
  }

  // ---------------------------------------------------------------- the exact law

  lemma StuckStatuses(s: State, j: JobId)
    requires Covered(s) && s.tokens == map[] && s.db.queue == map[] && s.db.retries == map[] && j in s.db.jobs
    ensures IsIdle(s.db.jobs[j].status) <==> !IsTerminal(s.db.jobs[j].status)
  {
    assert Placed(s, j);
  }

  lemma StuckSettled(g: Graph, s: State)
    requires Shape(g, s) && Covered(s) && s.tokens == map[] && s.db.queue == map[] && s.db.retries == map[]
    ensures Settled(s) == g.Keys <==> !HasIdleJob(s.db)
  {
    forall j | j in s.db.jobs ensures IsIdle(s.db.jobs[j].status) <==> !IsTerminal(s.db.jobs[j].status) {
      StuckStatuses(s, j);
    }
    forall j | j in s.db.jobs ensures j in Settled(s) <==> !IsIdle(s.db.jobs[j].status) {
    }
  }

  lemma SignalledIff(g: Graph, s: State)
    requires Shape(g, s) && Counted(s) && Uncounted(s) >= 0
    ensures s.signals == 1 <==> Settled(s) == g.Keys && Uncounted(s) == 0
  {
    SubsetCard(Settled(s), g.Keys);
  }

  /** A run that can go no further has signalled cleanup if and only if no job is left PENDING or
      READY and no parked job was abandoned. */
  lemma StuckSignalledIff(g: Graph, h: Hypotheses, r: Run)
    requires IsRun(g, h, r) && Quiescent(Last(r))
    ensures Last(r).signals == 1 <==> !HasIdleJob(Last(r).db) && Abandoned(r) == 0
  {
    RunReachable(g, h, r);
    QuiescentIsEmpty(Last(r));
    RunUncounted(g, h, r);
    StuckSettled(g, Last(r));
    SignalledIff(g, Last(r));
  }

  /** The workflow is finished: COMPLETED with every job COMPLETED, or FAILED with a casualty and
      every job terminal; cleanup was signalled exactly once. */
  ghost predicate Finished(g: Graph, s: State) {
    && s.db.jobs.Keys == g.Keys && Terminal(s.db.jobs) == g.Keys && s.signals == 1
    && (|| (s.db.wf.status == WfCompleted && WithStatus(s.db.jobs, Completed) == g.Keys)
        || (s.db.wf.status == WfFailed && HasCasualty(s.db)))
  }

  /** What may go wrong in a run: a parked job given up uncounted, a timeout that strands a job, or
      an early abort that the workflow outlives. */
  ghost predicate IsClean(g: Graph, h: Hypotheses, r: Run)
    requires IsRun(g, h, r)
  {
    && Abandoned(r) == 0 && !Stranded(r)
    && (HasFailingStep(g, h, r) || EarlyAborts(r) == 0)
  }

  lemma StuckFailed(g: Graph, h: Hypotheses, r: Run)
    requires IsRun(g, h, r) && Quiescent(Last(r)) && Last(r).db.wf.status == WfFailed
    ensures Finished(g, Last(r)) <==> Abandoned(r) == 0 && !Stranded(r)
  {
    var s := Last(r);
    RunReachable(g, h, r);
    QuiescentIsEmpty(s);
    StuckSignalledIff(g, h, r);
    IdleIffStranded(g, h, r);
    FailedHasCause(g, h, r);
    if s.signals == 1 { FinishedIsTerminal(g, s); }
  }

  lemma StuckCompleted(g: Graph, h: Hypotheses, r: Run)
    requires IsRun(g, h, r) && Quiescent(Last(r)) && Last(r).db.wf.status == WfCompleted
    ensures Finished(g, Last(r)) <==> EarlyAborts(r) == 0
    ensures Abandoned(r) == 0 && !Stranded(r)
  {
    var s := Last(r);
    RunReachable(g, h, r);
    StuckSignalledIff(g, h, r);
    IdleIffStranded(g, h, r);
    CompletedIffNoEarlyAbort(g, h, r);
    FinishedIsTerminal(g, s);
  }

  lemma StuckLive(g: Graph, h: Hypotheses, r: Run)
    requires IsRun(g, h, r) && Quiescent(Last(r)) && IsLive(Last(r).db.wf) && 1 <= Last(r).db.wf.maxConcurrent
    ensures EarlyAborts(r) > 0
  {
    if EarlyAborts(r) == 0 {
      NoEarlyAborts(g, h, r);
      DeadlockFree(g, h.(noEarlyAbort := true), r);
      RunReachable(g, h, r);
      QuiescentIsEmpty(Last(r));
      EmptyMeansIdle(Last(r));
    }
  }

  /** With no hypothesis: a run that can go no further has finished its workflow if and only if
      nothing went wrong in it. */
  lemma StuckFinishedIff(g: Graph, h: Hypotheses, r: Run)
    requires IsRun(g, h, r) && Quiescent(Last(r)) && 1 <= Last(r).db.wf.maxConcurrent
    ensures Finished(g, Last(r)) <==> IsClean(g, h, r)
  {
    RunReachable(g, h, r);
    FailedIff(g, h, r);
    if Last(r).db.wf.status == WfFailed {
      StuckFailed(g, h, r);
    } else if Last(r).db.wf.status == WfCompleted {
      StuckCompleted(g, h, r);
    } else {
      StuckLive(g, h, r);
    }
  }

  /** The hypotheses rule out what may go wrong. */
  lemma {:induction false} HypothesesAreClean(g: Graph, h: Hypotheses, r: Run)
    requires IsRun(g, h, r) && h.noTimeout && h.noEarlyAbort && h.oneHandler
    ensures IsClean(g, h, r)
  {
    CompletionConservation(g, h, r);
    NoEarlyAborts(g, h, r);
    NoTimeoutNoStranding(g, h, r);
  }

  lemma {:induction false} NoTimeoutNoStranding(g: Graph, h: Hypotheses, r: Run)
    requires IsRun(g, h, r) && h.noTimeout
    ensures !Stranded(r)
  {
    if r.Then? { NoTimeoutNoStranding(g, h, r.before); }
  }

  /** Under all hypotheses, a run that can go no further has finished the workflow: it is
      COMPLETED with every job COMPLETED, or FAILED with a FAILED or ABORTED one; every job is
      terminal and counted, and cleanup was signalled exactly once. */
  lemma StuckMeansFinished(g: Graph, h: Hypotheses, r: Run)
    requires IsRun(g, h, r) && h.noTimeout && h.noEarlyAbort && h.oneHandler
    requires 1 <= Last(r).db.wf.maxConcurrent && Quiescent(Last(r))
    ensures Finished(g, Last(r)) && Last(r).db.wf.completed == Last(r).db.wf.total
  {
    HypothesesAreClean(g, h, r);
    StuckFinishedIff(g, h, r);
    CleanupSignalledOnce(g, h, r);
  }
}
