/** Every step of the protocol keeps `Inv`, with no hypothesis on the environment.  Each
    conjunct is carried over from the few conjuncts it depends on. */
module Preservation {
  import opened Basics
  import opened Dag
  import opened Runtime
  import opened WorkflowScripts
  import opened JobScripts
  import opened Protocol
  import opened Invariants
  import opened Effects
  import opened TokenSteps
  import opened ScriptSteps
  import opened DependencyProofs
  import opened SlotProofs
  import opened CountProofs

  /** The job a step belongs to. */
  function StepJob(s: State, step: Step): JobId
    requires !step.Pop? && !step.PopRetry? ==> step.tok in s.tokens
  {
    if step.Pop? then step.job else if step.PopRetry? then step.job else s.tokens[step.tok].job
  }

  // ---------------------------------------------------------------- custody

  /** Every enabled step belongs to one job and keeps its local obligations. */
  lemma StepShaped(g: Graph, s: State, step: Step)
    requires Enabled(s, step) && CustodyInv(s) && s.db.jobs.Keys == g.Keys && Dependencies(g, s.db)
    requires s.db.wf.status != WfCanceled
    ensures StepShape(s, Apply(s, step), step.tok, StepJob(s, step))
  {
    match step
    case Pop(j, t) => PopShape(s, j, t);
    case ClaimJob(t) => ClaimShape(s, t);
    case PayloadFails(t) => PayloadFailureShape(s, t);
    case StartJob(t, now) => StartShape(s, t, now);
    case Finish(t, ok) => FinishShape(s, t, ok);
    case Take(t) => TakeShape(s, t);
    case HandleSuccess(t, now, pick) =>
      SoleHolder(s, t);
      assert ListsSuccessors(g, s.db, s.tokens[t].job);
      HandleSuccessShape(s, t, now, pick);
    case HandleFailure(t, now, retryAt, pick) =>
      if TakesRetry(s, t, now) {
        ScheduleRetryShape(s, t, retryAt, pick);
      } else {
        TerminalFailureShape(s, t);
      }
    case MarkAborted(t) => MarkAbortedShape(s, t);
    case PopRetry(j, t, now) => PopRetryShape(s, j, t);
    case HandleRetry(t, pick) => HandleRetryShape(s, t, pick);
  }

  // ---------------------------------------------------------------- dependencies

  lemma StepDependencies(g: Graph, s: State, step: Step)
    requires Enabled(s, step) && Shape(g, s) && Zsets(s.db) && Custody(s) && Dependencies(g, s.db)
    ensures Apply(s, step).db.jobs.Keys == g.Keys && Dependencies(g, Apply(s, step).db)
  {
    var db' := Apply(s, step).db;
    if step.HandleSuccess? {
      SoleHolder(s, step.tok);
      CompleteSuccessfulDependencies(g, s.db, s.tokens[step.tok].job, step.now, step.pick);
    } else {
      StepDepsFrame(s, step);
      DepsKept(g, s.db, db');
    }
  }

  lemma StepDepsFrame(s: State, step: Step)
    requires Enabled(s, step) && Zsets(s.db) && Custody(s) && !step.HandleSuccess?
    ensures DepsFrame(s.db, Apply(s, step).db)
  {
    if !step.Pop? && !step.PopRetry? { SoleHolder(s, step.tok); }
    match step
    case Pop(j, t) => SameJobsFrame(s.db, Apply(s, step).db);
    case ClaimJob(t) => ClaimFrame(s.db, s.tokens[t].job);
    case PayloadFails(t) => SameJobsFrame(s.db, Apply(s, step).db);
    case StartJob(t, now) => TryStartFrame(s.db, s.tokens[t].job, now);
    case Finish(t, ok) => SameJobsFrame(s.db, Apply(s, step).db);
    case Take(t) => SameJobsFrame(s.db, Apply(s, step).db);
    case HandleFailure(t, now, retryAt, pick) => HandleFailureFrame(s, t, now, retryAt, pick);
    case MarkAborted(t) => MarkAbortedFrame(s, t);
    case PopRetry(j, t, now) => SameJobsFrame(s.db, Apply(s, step).db);
    case HandleRetry(t, pick) => PromoteRetryFrame(s.db, s.tokens[t].job, pick);
  }

  lemma HandleFailureFrame(s: State, t: nat, now: int, retryAt: int, pick: Option<JobId>)
    requires Enabled(s, HandleFailure(t, now, retryAt, pick)) && Zsets(s.db) && Custody(s)
    ensures DepsFrame(s.db, Apply(s, HandleFailure(t, now, retryAt, pick)).db)
  {
    SoleHolder(s, t);
    var j := s.tokens[t].job;
    var count := RetryCountAfter(s.db.jobs[j], s.tokens[t].phase.outcome);
    if TakesRetry(s, t, now) {
      ScheduleRetryFrame(s.db, j, count, retryAt, pick);
    } else {
      CompleteFailedFrame(s.db, j, count, s.roster);
    }
  }

  // ---------------------------------------------------------------- slots

  lemma StepSlots(g: Graph, s: State, step: Step)
    requires Enabled(s, step) && Shape(g, s) && Zsets(s.db) && Custody(s) && Dependencies(g, s.db) && SlotsBounded(s.db)
    ensures SlotsBounded(Apply(s, step).db)
  {
    match step
    case HandleSuccess(t, now, pick) => HandleSuccessSlots(g, s, t, now, pick);
    case HandleFailure(t, now, retryAt, pick) => HandleFailureSlots(s, t, now, retryAt, pick);
    case HandleRetry(t, pick) => HandleRetrySlots(s, t, pick);
    case _ => TokenStepSlots(s, step);
  }

  lemma TokenStepSlots(s: State, step: Step)
    requires Enabled(s, step) && Custody(s) && SlotsBounded(s.db)
    requires !step.HandleSuccess? && !step.HandleFailure? && !step.HandleRetry?
    ensures SlotsBounded(Apply(s, step).db)
  {
    if !step.Pop? && !step.PopRetry? { SoleHolder(s, step.tok); }
    if step.StartJob? {
      TryStartSlots(s.db, s.tokens[step.tok].job, step.now);
    } else {
      ActiveSame(s.db.jobs, Apply(s, step).db.jobs);
    }
  }

  lemma HandleSuccessSlots(g: Graph, s: State, t: nat, now: int, pick: Option<JobId>)
    requires Enabled(s, HandleSuccess(t, now, pick)) && Shape(g, s) && Zsets(s.db) && Custody(s)
    requires Dependencies(g, s.db) && SlotsBounded(s.db)
    ensures SlotsBounded(Apply(s, HandleSuccess(t, now, pick)).db)
  {
    SoleHolder(s, t);
    var j := s.tokens[t].job;
    if SuccessApplies(s.db, j, now) {
      assert ListsSuccessors(g, s.db, j);
      AppliedSuccess(s.db, j, now, pick);
      AppliedSuccessSlots(s.db, j, pick);
    } else {
      RefusedSuccess(s.db, j, now, pick);
    }
  }

  lemma HandleFailureSlots(s: State, t: nat, now: int, retryAt: int, pick: Option<JobId>)
    requires Enabled(s, HandleFailure(t, now, retryAt, pick)) && Zsets(s.db) && Custody(s) && SlotsBounded(s.db)
    ensures SlotsBounded(Apply(s, HandleFailure(t, now, retryAt, pick)).db)
  {
    SoleHolder(s, t);
    var j := s.tokens[t].job;
    var count := RetryCountAfter(s.db.jobs[j], s.tokens[t].phase.outcome);
    if TakesRetry(s, t, now) {
      ScheduleRetrySlots(s.db, j, count, retryAt, pick);
    } else {
      CompleteFailedSlots(s.db, j, count, s.roster);
    }
  }

  lemma HandleRetrySlots(s: State, t: nat, pick: Option<JobId>)
    requires Enabled(s, HandleRetry(t, pick)) && Zsets(s.db) && Custody(s) && SlotsBounded(s.db)
    ensures SlotsBounded(Apply(s, HandleRetry(t, pick)).db)
  {
    SoleHolder(s, t);
    var j := s.tokens[t].job;
    if RetryApplies(s.db, j) {
      RetryAppliesSlots(s.db, j, pick);
    } else {
      AbortedRetrySlots(s.db, j, pick);
    }
  }

  // ---------------------------------------------------------------- lifecycle

  lemma LifecycleKept(s: State, s': State, j: JobId)
    requires Lifecycle(s.db) && BelongsTo(s.db, s'.db, j)
    requires s'.db.wf.status == s.db.wf.status || s'.db.wf.status == WfCompleted || s'.db.wf.status == WfFailed
    requires s'.db.wf.startTime == s.db.wf.startTime
    requires s'.db.wf.status == WfReady ==> j in s'.db.jobs ==>
               s'.db.jobs[j].status != Running && s'.db.jobs[j].status != RetryDelay
    ensures Lifecycle(s'.db)
  {
    forall k | k in s'.db.jobs && s'.db.wf.status == WfReady
      ensures s'.db.jobs[k].status != Running && s'.db.jobs[k].status != RetryDelay
    {
      if k != j { assert SideEffect(s.db, s'.db, k); }
    }
  }

  /** While the workflow is READY the only records are abort records and nothing waits to be retried. */
  lemma ReadyMeansNotRun(s: State, t: nat)
    requires Lifecycle(s.db) && Custody(s) && t in s.tokens && s.db.wf.status == WfReady
    ensures s.tokens[t].job in s.db.jobs
    ensures s.tokens[t].phase.RetryPopped? ==> s.db.jobs[s.tokens[t].job].status == Aborted
    ensures s.tokens[t].phase.Handling? ==> s.tokens[t].phase.outcome.AbortedRun?
  {
    SoleHolder(s, t);
  }

  lemma StartLifecycle(s: State, t: nat, now: int)
    requires Lifecycle(s.db) && Custody(s) && t in s.tokens && s.tokens[t].phase.Claimed?
    ensures Lifecycle(AfterStart(s, t, now).db)
  {
    SoleHolder(s, t);
  }

  lemma HandleSuccessLifecycle(s: State, t: nat, now: int, pick: Option<JobId>)
    requires Lifecycle(s.db) && Custody(s) && Enabled(s, HandleSuccess(t, now, pick))
    requires BelongsTo(s.db, AfterHandleSuccess(s, t, now, pick).db, s.tokens[t].job)
    ensures Lifecycle(AfterHandleSuccess(s, t, now, pick).db)
  {
    SoleHolder(s, t);
    var j := s.tokens[t].job;
    if SuccessApplies(s.db, j, now) { AppliedSuccess(s.db, j, now, pick); } else { RefusedSuccess(s.db, j, now, pick); }
    LifecycleKept(s, AfterHandleSuccess(s, t, now, pick), j);
  }

  lemma HandleFailureLifecycle(s: State, t: nat, now: int, retryAt: int, pick: Option<JobId>)
    requires Lifecycle(s.db) && Custody(s) && Enabled(s, HandleFailure(t, now, retryAt, pick))
    requires BelongsTo(s.db, Apply(s, HandleFailure(t, now, retryAt, pick)).db, s.tokens[t].job)
    ensures Lifecycle(Apply(s, HandleFailure(t, now, retryAt, pick)).db)
  {
    SoleHolder(s, t);
    var j := s.tokens[t].job;
    if s.db.wf.status == WfReady { ReadyMeansNotRun(s, t); }
    if !TakesRetry(s, t, now) {
      FailurePointwise(s.db, j, RetryCountAfter(s.db.jobs[j], s.tokens[t].phase.outcome), s.roster);
    }
    LifecycleKept(s, Apply(s, HandleFailure(t, now, retryAt, pick)), j);
  }

  lemma HandleRetryLifecycle(s: State, t: nat, pick: Option<JobId>)
    requires Lifecycle(s.db) && Custody(s) && Enabled(s, HandleRetry(t, pick))
    requires BelongsTo(s.db, AfterHandleRetry(s, t, pick).db, s.tokens[t].job)
    ensures Lifecycle(AfterHandleRetry(s, t, pick).db)
  {
    SoleHolder(s, t);
    LifecycleKept(s, AfterHandleRetry(s, t, pick), s.tokens[t].job);
  }

  lemma StepLifecycle(s: State, step: Step)
    requires Enabled(s, step) && Custody(s) && Lifecycle(s.db)
    requires BelongsTo(s.db, Apply(s, step).db, StepJob(s, step))
    ensures Lifecycle(Apply(s, step).db)
  {
    match step
    case Pop(j, t) =>
    case ClaimJob(t) => SoleHolder(s, t); LifecycleKept(s, Apply(s, step), s.tokens[t].job);
    case PayloadFails(t) =>
    case StartJob(t, now) => StartLifecycle(s, t, now);
    case Finish(t, ok) =>
    case Take(t) =>
    case HandleSuccess(t, now, pick) => HandleSuccessLifecycle(s, t, now, pick);
    case HandleFailure(t, now, retryAt, pick) => HandleFailureLifecycle(s, t, now, retryAt, pick);
    case MarkAborted(t) => SoleHolder(s, t); LifecycleKept(s, Apply(s, step), s.tokens[t].job);
    case PopRetry(j, t, now) =>
    case HandleRetry(t, pick) => HandleRetryLifecycle(s, t, pick);
  }

  // ---------------------------------------------------------------- completion counting

  lemma StartCounts(s: State, s': State, t: nat, now: int)
    requires Custody(s) && Lifecycle(s.db) && t in s.tokens && s.tokens[t].phase.Claimed?
    requires s.db.wf.status != WfCompleted && s' == AfterStart(s, t, now)
    ensures CountsNothing(s, s', t, s.tokens[t].job) && !SettledHere(s', t, s.tokens[t].job)
  {
    SoleHolder(s, t);
    var j := s.tokens[t].job;
    StartEffect(s.db, j, now);
    OneJobNewlyTerminal(s.db, s'.db, j);
  }

  lemma AppliedSuccessCounts(s: State, s': State, t: nat, now: int, pick: Option<JobId>)
    requires Custody(s) && Zsets(s.db) && Enabled(s, HandleSuccess(t, now, pick))
    requires s' == AfterHandleSuccess(s, t, now, pick) && SuccessApplies(s.db, s.tokens[t].job, now)
    requires NoDup(SuccessorsOf(s.db, s.tokens[t].job)) && 0 < s.db.wf.total
    ensures CountsAll(s, s', t, s.tokens[t].job)
  {
    SoleHolder(s, t);
    var j := s.tokens[t].job;
    AppliedSuccess(s.db, j, now, pick);
    AppliedSuccessBelongs(s.db, j, SuccessPromotes(s.db), pick);
    SuccessNewlyTerminal(s.db, j, SuccessPromotes(s.db), pick);
  }

  lemma RefusedSuccessCounts(s: State, s': State, t: nat, now: int, pick: Option<JobId>)
    requires Custody(s) && Enabled(s, HandleSuccess(t, now, pick))
    requires s' == AfterHandleSuccess(s, t, now, pick) && !SuccessApplies(s.db, s.tokens[t].job, now)
    ensures CountsNothing(s, s', t, s.tokens[t].job) && !SettledHere(s', t, s.tokens[t].job)
  {
    SoleHolder(s, t);
    var j := s.tokens[t].job;
    RefusedSuccess(s.db, j, now, pick);
    OneJobNewlyTerminal(s.db, s'.db, j);
  }

  /** The failure settles its job, whose record or attempt was open before. */
  lemma TerminalFailureSettles(s: State, s': State, t: nat)
    requires Custody(s) && t in s.tokens && s.tokens[t].phase.Handling? && !s.tokens[t].phase.outcome.Succeeded?
    requires s.tokens[t].job in s.db.jobs && s' == AfterTerminalFailure(s, t)
    ensures !SettledHere(s, t, s.tokens[t].job) && SettledHere(s', t, s.tokens[t].job)
  {
    SoleHolder(s, t);
    var j := s.tokens[t].job;
    FailureOwnJob(s.db, j, RetryCountAfter(s.db.jobs[j], s.tokens[t].phase.outcome), s.roster);
  }

  lemma TerminalFailureCounters(s: State, s': State, t: nat)
    requires t in s.tokens && s.tokens[t].phase.Handling? && !s.tokens[t].phase.outcome.Succeeded?
    requires s.tokens[t].job in s.db.jobs && s' == AfterTerminalFailure(s, t) && 0 < s.db.wf.total
    ensures s'.db.wf.completed == s.db.wf.completed + 1 + |NewlyTerminal(s.db, s'.db, s.tokens[t].job)|
    ensures s'.signals == s.signals + (if s'.db.wf.completed == s'.db.wf.total then 1 else 0)
    ensures IsLive(s'.db.wf) ==> IsLive(s.db.wf)
    ensures s'.db.wf.status == WfCompleted ==> s.db.wf.status == WfCompleted
  {
    var j := s.tokens[t].job;
    FailureCompleted(s.db, j, RetryCountAfter(s.db.jobs[j], s.tokens[t].phase.outcome), s.roster);
  }

  lemma TerminalFailureCounts(g: Graph, s: State, s': State, t: nat)
    requires Shape(g, s) && Custody(s)
    requires t in s.tokens && s.tokens[t].phase.Handling? && !s.tokens[t].phase.outcome.Succeeded?
    requires s.tokens[t].job in s.db.jobs && s' == AfterTerminalFailure(s, t)
    ensures CountsAll(s, s', t, s.tokens[t].job)
  {
    TerminalFailureSettles(s, s', t);
    TerminalFailureCounters(s, s', t);
  }

  lemma ScheduleRetryNewlyTerminal(db: Store, j: JobId, retryCount: int, retryAt: int, pick: Option<JobId>)
    requires j in db.jobs && IsPop(db.waiting, pick)
    ensures NewlyTerminal(db, ScheduleRetry(db, j, retryCount, retryAt, pick).0, j) == {}
  {
    var db1 := ParkRetry(db, j, retryCount, retryAt);
    OneJobNewlyTerminal(db, db1, j);
    PromotingNewlyTerminal(db, db1, j, RetryPromotes(db), pick);
  }

  lemma ScheduleRetryCounts(s: State, s': State, t: nat, retryAt: int, pick: Option<JobId>)
    requires Custody(s) && Zsets(s.db)
    requires t in s.tokens && s.tokens[t].phase.Handling? && s.tokens[t].phase.outcome.FailedRun?
    requires s.tokens[t].job in s.db.jobs && IsPop(s.db.waiting, pick) && s' == AfterScheduleRetry(s, t, retryAt, pick)
    ensures CountsNothing(s, s', t, s.tokens[t].job) && !SettledHere(s', t, s.tokens[t].job)
  {
    SoleHolder(s, t);
    var j := s.tokens[t].job;
    ScheduleRetryNewlyTerminal(s.db, j, RetryCountAfter(s.db.jobs[j], s.tokens[t].phase.outcome), retryAt, pick);
  }

  lemma HandleRetryCounts(s: State, s': State, t: nat, pick: Option<JobId>)
    requires Custody(s) && Zsets(s.db) && Lifecycle(s.db) && Enabled(s, HandleRetry(t, pick))
    requires s' == AfterHandleRetry(s, t, pick)
    ensures CountsNothing(s, s', t, s.tokens[t].job)
    ensures s.db.wf.status == WfRunning ==>
              (SettledHere(s', t, s.tokens[t].job) ==> SettledHere(s, t, s.tokens[t].job))
  {
    SoleHolder(s, t);
    var j := s.tokens[t].job;
    PromoteRetryNewlyTerminal(s.db, j, pick);
    PromoteRetryStatus(s.db, j, pick);
  }

  /** While a job is not terminal, completion was not signalled. */
  lemma NotCompleted(g: Graph, s: State, j: JobId)
    requires Shape(g, s) && Counted(s) && j in s.db.jobs && !IsTerminal(s.db.jobs[j].status)
    ensures s.db.wf.status != WfCompleted && s.db.wf.completed < s.db.wf.total
  {
    SettledBound(g, s);
    assert j !in Settled(s);
  }

  /** The step settles nothing, or counts all it settles. */
  ghost predicate CountsExactly(s: State, s': State, t: nat, j: JobId) {
    (CountsNothing(s, s', t, j) && (SettledHere(s', t, j) ==> SettledHere(s, t, j))) || CountsAll(s, s', t, j)
  }

  lemma HandleSuccessCounts(s: State, t: nat, now: int, pick: Option<JobId>)
    requires Custody(s) && Zsets(s.db) && Enabled(s, HandleSuccess(t, now, pick))
    requires NoDup(SuccessorsOf(s.db, s.tokens[t].job)) && 0 < s.db.wf.total
    ensures CountsExactly(s, AfterHandleSuccess(s, t, now, pick), t, s.tokens[t].job)
  {
    if SuccessApplies(s.db, s.tokens[t].job, now) {
      AppliedSuccessCounts(s, AfterHandleSuccess(s, t, now, pick), t, now, pick);
    } else {
      RefusedSuccessCounts(s, AfterHandleSuccess(s, t, now, pick), t, now, pick);
    }
  }

  lemma HandleFailureCounts(g: Graph, s: State, t: nat, now: int, retryAt: int, pick: Option<JobId>)
    requires Shape(g, s) && Custody(s) && Zsets(s.db) && Enabled(s, HandleFailure(t, now, retryAt, pick))
    ensures CountsExactly(s, Apply(s, HandleFailure(t, now, retryAt, pick)), t, s.tokens[t].job)
  {
    if TakesRetry(s, t, now) {
      ScheduleRetryCounts(s, AfterScheduleRetry(s, t, retryAt, pick), t, retryAt, pick);
    } else {
      TerminalFailureCounts(g, s, AfterTerminalFailure(s, t), t);
    }
  }

  lemma HolderLists(g: Graph, s: State, t: nat)
    requires s.db.jobs.Keys == g.Keys && Dependencies(g, s.db) && Custody(s)
    requires t in s.tokens && s.tokens[t].phase.Handling? && s.tokens[t].phase.outcome.Succeeded?
    ensures NoDup(SuccessorsOf(s.db, s.tokens[t].job))
  {
    SoleHolder(s, t);
    assert ListsSuccessors(g, s.db, s.tokens[t].job);
  }

  /** Every step but a retry promotion counts exactly what it settles. */
  lemma StepCountsExactly(g: Graph, s: State, step: Step)
    requires Enabled(s, step) && !step.HandleRetry? && Shape(g, s) && Zsets(s.db) && Custody(s)
    requires Dependencies(g, s.db) && Lifecycle(s.db) && Counted(s)
    ensures CountsExactly(s, Apply(s, step), step.tok, StepJob(s, step))
  {
    if step.HandleSuccess? {
      HolderLists(g, s, step.tok);
      HandleSuccessCounts(s, step.tok, step.now, step.pick);
    } else if step.HandleFailure? {
      HandleFailureCounts(g, s, step.tok, step.now, step.retryAt, step.pick);
    } else {
      TokenStepCounts(g, s, step);
    }
  }

  /** Every step counts nothing, or all it settles. */
  lemma StepCounts(g: Graph, s: State, step: Step)
    requires Enabled(s, step) && Shape(g, s) && Zsets(s.db) && Custody(s)
    requires Dependencies(g, s.db) && Lifecycle(s.db) && Counted(s)
    ensures var s', t, j := Apply(s, step), step.tok, StepJob(s, step);
      CountsNothing(s, s', t, j) || CountsAll(s, s', t, j)
  {
    if step.HandleRetry? {
      HandleRetryCounts(s, Apply(s, step), step.tok, step.pick);
    } else {
      StepCountsExactly(g, s, step);
    }
  }

  /** The steps of schedulers and workers settle nothing. */
  lemma TokenStepCounts(g: Graph, s: State, step: Step)
    requires Enabled(s, step) && Shape(g, s) && Custody(s) && Lifecycle(s.db) && Counted(s)
    requires !step.HandleSuccess? && !step.HandleFailure? && !step.HandleRetry?
    ensures var s', t, j := Apply(s, step), step.tok, StepJob(s, step);
      CountsNothing(s, s', t, j) && (SettledHere(s', t, j) ==> SettledHere(s, t, j))
  {
    if step.ClaimJob? {
      SoleHolder(s, step.tok);
      ClaimCounts(s, AfterClaim(s, step.tok), step.tok);
    } else if step.StartJob? {
      ClaimedStartCounts(g, s, step.tok, step.now);
    } else if step.MarkAborted? {
      SoleHolder(s, step.tok);
      MarkAbortedCounts(s, AfterMarkAborted(s, step.tok), step.tok);
    } else {
      QuietStepCounts(s, step);
    }
  }

  lemma ClaimedStartCounts(g: Graph, s: State, t: nat, now: int)
    requires Shape(g, s) && Custody(s) && Lifecycle(s.db) && Counted(s) && t in s.tokens && s.tokens[t].phase.Claimed?
    ensures CountsNothing(s, AfterStart(s, t, now), t, s.tokens[t].job)
    ensures !SettledHere(AfterStart(s, t, now), t, s.tokens[t].job)
  {
    SoleHolder(s, t);
    NotCompleted(g, s, s.tokens[t].job);
    StartCounts(s, AfterStart(s, t, now), t, now);
  }

  lemma QuietStepCounts(s: State, step: Step)
    requires Enabled(s, step) && Custody(s)
    requires step.Pop? || step.PopRetry? || step.PayloadFails? || step.Finish? || step.Take?
    ensures var s', t, j := Apply(s, step), step.tok, StepJob(s, step);
      CountsNothing(s, s', t, j) && (SettledHere(s', t, j) ==> SettledHere(s, t, j))
  {
    if !step.Pop? && !step.PopRetry? { SoleHolder(s, step.tok); }
    QuietCounts(s, Apply(s, step), step.tok, StepJob(s, step));
  }

  lemma QuietCounts(s: State, s': State, t: nat, j: JobId)
    requires s'.db.jobs == s.db.jobs && s'.db.wf == s.db.wf && s'.signals == s.signals
    requires SettledHere(s, t, j) <==> SettledHere(s', t, j)
    ensures CountsNothing(s, s', t, j)
  {
    OneJobNewlyTerminal(s.db, s'.db, j);
  }

  lemma ClaimCounts(s: State, s': State, t: nat)
    requires t in s.tokens && s.tokens[t].phase.Popped? && TokenFits(s, t) && s' == AfterClaim(s, t)
    ensures CountsNothing(s, s', t, s.tokens[t].job)
    ensures SettledHere(s', t, s.tokens[t].job) ==> SettledHere(s, t, s.tokens[t].job)
  {
    OneJobNewlyTerminal(s.db, s'.db, s.tokens[t].job);
  }

  lemma MarkAbortedCounts(s: State, s': State, t: nat)
    requires t in s.tokens && s.tokens[t].phase.MarkingAborted? && TokenFits(s, t) && s' == AfterMarkAborted(s, t)
    ensures CountsNothing(s, s', t, s.tokens[t].job)
    ensures SettledHere(s', t, s.tokens[t].job) ==> SettledHere(s, t, s.tokens[t].job)
  {
    OneJobNewlyTerminal(s.db, s'.db, s.tokens[t].job);
  }

  // ---------------------------------------------------------------- the invariant

  /** What no step ever changes. */
  predicate SameConstants(s: State, s': State) {
    s'.roster == s.roster && s'.db.wf.total == s.db.wf.total && s'.db.wf.maxConcurrent == s.db.wf.maxConcurrent
  }

  lemma ScriptConstants(s: State, step: Step)
    requires Enabled(s, step) && (step.HandleSuccess? || step.HandleFailure? || step.HandleRetry?)
    ensures SameConstants(s, Apply(s, step))
  {
  }

  lemma StepConstants(s: State, step: Step)
    requires Enabled(s, step)
    ensures SameConstants(s, Apply(s, step))
  {
    if step.HandleSuccess? || step.HandleFailure? || step.HandleRetry? { ScriptConstants(s, step); }
  }

  /** Every step keeps the invariant. */
  lemma StepInv(g: Graph, s: State, step: Step)
    requires Enabled(s, step) && Inv(g, s)
    ensures Inv(g, Apply(s, step))
  {
    var s', t, j := Apply(s, step), step.tok, StepJob(s, step);
    StepConstants(s, step);
    StepShaped(g, s, step);
    StepShapeKeepsCustody(s, s', t, j);
    StepDependencies(g, s, step);
    StepSlots(g, s, step);
    StepLifecycle(s, step);
    StepCounts(g, s, step);
    if CountsNothing(s, s', t, j) {
      CountedQuiet(s, s', t, j);
    } else {
      CountedMore(g, s, s', t, j);
    }
  }
}
