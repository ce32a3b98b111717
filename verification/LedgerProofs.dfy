/** The three events that keep a run from its ideal course, and what each step does to the slot
    and completion counters once they are counted: the counters are then exact in every run. */
module LedgerProofs {
  import opened Basics
  import opened Dag
  import opened Runtime
  import opened WorkflowScripts
  import opened JobScripts
  import opened Protocol
  import opened Invariants
  import opened Effects
  import opened TokenSteps
  import opened ScriptSteps
  import opened DependencyProofs
  import opened SlotProofs
  import opened CountProofs
  import opened Preservation

  /** An ABORTED record is handled while the workflow is READY: its slot is not given back. */
  ghost predicate IsEarlyAbort(s: State, step: Step) {
    && step.HandleFailure? && step.tok in s.tokens && s.tokens[step.tok].phase.Handling?
    && s.tokens[step.tok].phase.outcome.AbortedRun? && s.db.wf.status == WfReady
  }

  /** A parked job is taken up while the workflow is not RUNNING: it is ABORTED and not counted. */
  ghost predicate IsAbandonment(s: State, step: Step) {
    && step.HandleRetry? && step.tok in s.tokens && s.tokens[step.tok].job in s.db.jobs
    && s.db.jobs[s.tokens[step.tok].job].status == RetryDelay && s.db.wf.status != WfRunning
  }

  /** Some job waits for a dependency or for a slot. */
  ghost predicate HasIdleJob(db: Store) {
    exists k :: k in db.jobs && (db.jobs[k].status == Pending || db.jobs[k].status == Ready)
  }

  /** A success record is handled after the workflow's time while some job is PENDING or READY:
      the workflow FAILS and nobody cancels that job. */
  ghost predicate IsStranding(s: State, step: Step) {
    && step.HandleSuccess? && s.db.wf.status == WfRunning && WorkflowExpired(s.db.wf, step.now)
    && HasIdleJob(s.db)
  }

  /** A failure that is not retried is handled while the workflow is RUNNING, or a success record
      is handled after its time: the workflow FAILS. */
  ghost predicate IsFailing(s: State, step: Step)
    requires Enabled(s, step)
  {
    && s.db.wf.status == WfRunning
    && (|| (step.HandleFailure? && !TakesRetry(s, step.tok, step.now))
        || (step.HandleSuccess? && WorkflowExpired(s.db.wf, step.now)))
  }

  // ---------------------------------------------------------------- slots

  /** The reserved slots that no job holds. */
  ghost function Leak(db: Store): int {
    db.wf.reserved - |Active(db.jobs)|
  }

  lemma TokenStepLeak(s: State, step: Step)
    requires Enabled(s, step) && Custody(s) && SlotsBounded(s.db) && Lifecycle(s.db)
    requires !step.HandleSuccess? && !step.HandleFailure? && !step.HandleRetry?
    requires IsLive(Apply(s, step).db.wf)
    ensures Leak(Apply(s, step).db) == Leak(s.db)
  {
    if !step.Pop? && !step.PopRetry? { SoleHolder(s, step.tok); }
    if step.StartJob? {
      StartEffect(s.db, s.tokens[step.tok].job, step.now);
      TryStartSlots(s.db, s.tokens[step.tok].job, step.now);
    } else {
      ActiveSame(s.db.jobs, Apply(s, step).db.jobs);
    }
  }

  lemma HandleSuccessLeak(g: Graph, s: State, t: nat, now: int, pick: Option<JobId>)
    requires Enabled(s, HandleSuccess(t, now, pick)) && Zsets(s.db) && Custody(s) && SlotsBounded(s.db)
    requires s.db.jobs.Keys == g.Keys && Dependencies(g, s.db)
    ensures Leak(AfterHandleSuccess(s, t, now, pick).db) == Leak(s.db)
  {
    SoleHolder(s, t);
    HolderLists(g, s, t);
    var j := s.tokens[t].job;
    if SuccessApplies(s.db, j, now) {
      AppliedSuccess(s.db, j, now, pick);
      AppliedSuccessSlots(s.db, j, pick);
    } else {
      RefusedSuccess(s.db, j, now, pick);
    }
  }

  /** In a READY workflow the slot of the failed job stays reserved. */
  lemma ReadyFailureLeak(db: Store, j: JobId, retryCount: int, ids: seq<JobId>)
    requires j in db.jobs && IsActive(db.jobs[j].status) && db.wf.status == WfReady
    ensures Leak(CompleteFailed(db, j, retryCount, ids).0) == Leak(db) + 1
  {
    FailurePointwise(db, j, retryCount, ids);
    ActiveDrop(db.jobs, CompleteFailed(db, j, retryCount, ids).0.jobs, j);
  }

  lemma TerminalFailureLeak(s: State, t: nat)
    requires Custody(s) && Lifecycle(s.db)
    requires t in s.tokens && s.tokens[t].phase.Handling? && !s.tokens[t].phase.outcome.Succeeded?
    requires s.tokens[t].job in s.db.jobs && IsLive(AfterTerminalFailure(s, t).db.wf)
    ensures s.db.wf.status == WfReady && s.tokens[t].phase.outcome.AbortedRun?
    ensures Leak(AfterTerminalFailure(s, t).db) == Leak(s.db) + 1
  {
    SoleHolder(s, t);
    var j := s.tokens[t].job;
    ReadyMeansNotRun(s, t);
    ReadyFailureLeak(s.db, j, RetryCountAfter(s.db.jobs[j], s.tokens[t].phase.outcome), s.roster);
  }

  lemma HandleFailureLeak(s: State, t: nat, now: int, retryAt: int, pick: Option<JobId>)
    requires Enabled(s, HandleFailure(t, now, retryAt, pick)) && Zsets(s.db) && Custody(s) && SlotsBounded(s.db)
    requires Lifecycle(s.db) && IsLive(Apply(s, HandleFailure(t, now, retryAt, pick)).db.wf)
    ensures Leak(Apply(s, HandleFailure(t, now, retryAt, pick)).db)
         == Leak(s.db) + if IsEarlyAbort(s, HandleFailure(t, now, retryAt, pick)) then 1 else 0
  {
    SoleHolder(s, t);
    var j := s.tokens[t].job;
    if TakesRetry(s, t, now) {
      ScheduleRetrySlots(s.db, j, RetryCountAfter(s.db.jobs[j], s.tokens[t].phase.outcome), retryAt, pick);
    } else {
      TerminalFailureLeak(s, t);
    }
  }

  lemma HandleRetryLeak(s: State, t: nat, pick: Option<JobId>)
    requires Enabled(s, HandleRetry(t, pick)) && Zsets(s.db) && Custody(s) && SlotsBounded(s.db)
    ensures Leak(AfterHandleRetry(s, t, pick).db) == Leak(s.db)
  {
    SoleHolder(s, t);
    var j := s.tokens[t].job;
    if RetryApplies(s.db, j) {
      RetryAppliesSlots(s.db, j, pick);
    } else {
      AbortedRetrySlots(s.db, j, pick);
    }
  }

  /** While the workflow is live, only an early abort makes a slot leak, and just one. */
  lemma StepLeak(g: Graph, s: State, step: Step)
    requires Enabled(s, step) && Zsets(s.db) && Custody(s) && SlotsBounded(s.db) && Lifecycle(s.db)
    requires s.db.jobs.Keys == g.Keys && Dependencies(g, s.db) && IsLive(Apply(s, step).db.wf)
    ensures Leak(Apply(s, step).db) == Leak(s.db) + if IsEarlyAbort(s, step) then 1 else 0
  {
    if step.HandleSuccess? {
      HandleSuccessLeak(g, s, step.tok, step.now, step.pick);
    } else if step.HandleFailure? {
      HandleFailureLeak(s, step.tok, step.now, step.retryAt, step.pick);
    } else if step.HandleRetry? {
      HandleRetryLeak(s, step.tok, step.pick);
    } else {
      TokenStepLeak(s, step);
    }
  }

  /** A workflow that is live after a step was live before. */
  lemma LiveBefore(g: Graph, s: State, step: Step)
    requires Enabled(s, step) && Inv(g, s) && IsLive(Apply(s, step).db.wf)
    ensures IsLive(s.db.wf)
  {
    StepCounts(g, s, step);
  }

  // ---------------------------------------------------------------- completion

  /** The settled jobs that were never counted. */
  ghost function Uncounted(s: State): int {
    |Settled(s)| - s.db.wf.completed
  }

  lemma RetrySettlesIffAbandoned(s: State, t: nat, pick: Option<JobId>)
    requires Enabled(s, HandleRetry(t, pick)) && Custody(s)
    ensures var j, s' := s.tokens[t].job, AfterHandleRetry(s, t, pick);
      SettledHere(s', t, j) && !SettledHere(s, t, j) <==> IsAbandonment(s, HandleRetry(t, pick))
  {
    SoleHolder(s, t);
    PromoteRetryStatus(s.db, s.tokens[t].job, pick);
  }

  lemma HandleRetryUncounted(s: State, t: nat, pick: Option<JobId>)
    requires Enabled(s, HandleRetry(t, pick)) && Zsets(s.db) && Custody(s) && Lifecycle(s.db)
    requires StepShape(s, AfterHandleRetry(s, t, pick), t, s.tokens[t].job)
    ensures Uncounted(AfterHandleRetry(s, t, pick))
         == Uncounted(s) + if IsAbandonment(s, HandleRetry(t, pick)) then 1 else 0
  {
    var s' := AfterHandleRetry(s, t, pick);
    HandleRetryCounts(s, s', t, pick);
    RetrySettlesIffAbandoned(s, t, pick);
    SettledCard(s, s', t, s.tokens[t].job);
  }

  lemma ExactUncounted(s: State, s': State, t: nat, j: JobId)
    requires Custody(s) && StepShape(s, s', t, j) && CountsExactly(s, s', t, j)
    ensures Uncounted(s') == Uncounted(s)
  {
    SettledCard(s, s', t, j);
  }

  /** Only an abandonment settles a job without counting it. */
  lemma StepUncounted(g: Graph, s: State, step: Step)
    requires Enabled(s, step) && Inv(g, s)
    ensures Uncounted(Apply(s, step)) == Uncounted(s) + if IsAbandonment(s, step) then 1 else 0
  {
    StepShaped(g, s, step);
    if step.HandleRetry? {
      HandleRetryUncounted(s, step.tok, step.pick);
    } else {
      StepCountsExactly(g, s, step);
      ExactUncounted(s, Apply(s, step), step.tok, StepJob(s, step));
    }
  }
}
