/** What holds under the named hypotheses: exact slots and sound outcomes without early aborts,
    complete failure propagation without timeouts and with one completion handler. */
module HypothesisProofs {
  import opened Basics
  import opened Dag
  import opened Runtime
  import opened WorkflowScripts
  import opened JobScripts
  import opened Protocol
  import opened Invariants
  import opened Effects
  import opened TokenSteps
  import opened ScriptSteps
  import opened DependencyProofs
  import opened SlotProofs
  import opened CountProofs
  import opened Preservation

  // ---------------------------------------------------------------- no early abort

  /** In a live workflow a held job is neither FAILED nor ABORTED, and in a COMPLETED one no
      job is held at all. */
  lemma ExactHolder(s: State, t: nat)
    requires Custody(s) && SlotsExact(s.db) && t in s.tokens
    ensures TokenFits(s, t)
    ensures s.db.wf.status != WfCompleted
    ensures IsLive(s.db.wf) ==> !IsTerminal(s.db.jobs[s.tokens[t].job].status)
  {
    SoleHolder(s, t);
  }

  /** Nothing the predicate speaks about changes. */
  lemma ExactSame(db: Store, db': Store)
    requires SlotsExact(db)
    requires db'.jobs == db.jobs && db'.waiting == db.waiting
    requires db'.wf == db.wf.(status := db'.wf.status) && (db'.wf.status == db.wf.status || db'.wf.status == WfFailed)
    ensures SlotsExact(db')
  {
  }

  lemma ExactClaim(s: State, t: nat)
    requires Custody(s) && Lifecycle(s.db) && SlotsExact(s.db) && t in s.tokens && s.tokens[t].phase.Popped?
    ensures SlotsExact(AfterClaim(s, t).db)
  {
    ExactHolder(s, t);
    ActiveSame(s.db.jobs, AfterClaim(s, t).db.jobs);
  }

  lemma ExactStart(s: State, t: nat, now: int)
    requires Custody(s) && Lifecycle(s.db) && SlotsExact(s.db) && SlotsBounded(s.db)
    requires t in s.tokens && s.tokens[t].phase.Claimed?
    ensures SlotsExact(AfterStart(s, t, now).db)
  {
    ExactHolder(s, t);
    StartEffect(s.db, s.tokens[t].job, now);
    TryStartSlots(s.db, s.tokens[t].job, now);
  }

  lemma ExactMarkAborted(s: State, t: nat)
    requires Custody(s) && Lifecycle(s.db) && SlotsExact(s.db) && t in s.tokens && s.tokens[t].phase.MarkingAborted?
    ensures SlotsExact(AfterMarkAborted(s, t).db)
  {
    ExactHolder(s, t);
  }

  /** A completing step with nobody FAILED or ABORTED completes every job. */
  lemma ExactCompletion(g: Graph, s': State)
    requires Shape(g, s') && Counted(s') && s'.db.wf.status == WfCompleted
    requires forall k :: k in s'.db.jobs ==> s'.db.jobs[k].status != Failed && s'.db.jobs[k].status != Aborted
    ensures SlotsExact(s'.db)
  {
    SettledBound(g, s');
    forall k | k in s'.db.jobs ensures s'.db.jobs[k].status == Completed {
      assert k in Settled(s');
    }
  }

  lemma AppliedSuccessNoCasualty(db: Store, j: JobId, slotFree: bool, pick: Option<JobId>)
    requires j in db.jobs && NoDup(SuccessorsOf(db, j)) && IsPop(AfterSuccess(db, j).waiting, pick)
    requires forall k :: k in db.jobs ==> db.jobs[k].status != Failed && db.jobs[k].status != Aborted
    ensures var db' := Promoting(AfterSuccess(db, j), slotFree, pick).0;
      forall k :: k in db'.jobs ==> db'.jobs[k].status != Failed && db'.jobs[k].status != Aborted
  {
    SuccessPointwise(db, j);
  }

  lemma ExactContinuingSuccess(db: Store, j: JobId, pick: Option<JobId>)
    requires Zsets(db) && SlotsExact(db) && SlotsBounded(db) && db.wf.status == WfRunning
    requires j in db.jobs && db.jobs[j].status == Running && NoDup(SuccessorsOf(db, j))
    requires IsPop(AfterSuccess(db, j).waiting, pick) && 0 < db.wf.total && !CompletesWorkflow(db.wf)
    ensures SlotsExact(Promoting(AfterSuccess(db, j), SuccessPromotes(db), pick).0)
  {
    AppliedSuccessNoCasualty(db, j, SuccessPromotes(db), pick);
    AppliedSuccessSlots(db, j, pick);
  }

  lemma ExactCompletingSuccess(g: Graph, db: Store, s': State, j: JobId, pick: Option<JobId>)
    requires SlotsExact(db) && db.wf.status == WfRunning && CompletesWorkflow(db.wf)
    requires j in db.jobs && NoDup(SuccessorsOf(db, j)) && IsPop(AfterSuccess(db, j).waiting, pick)
    requires s'.db == Promoting(AfterSuccess(db, j), SuccessPromotes(db), pick).0
    requires Shape(g, s') && Counted(s')
    ensures SlotsExact(s'.db)
  {
    AppliedSuccessNoCasualty(db, j, SuccessPromotes(db), pick);
    ExactCompletion(g, s');
  }

  lemma ExactAppliedSuccess(g: Graph, db: Store, s': State, j: JobId, pick: Option<JobId>)
    requires Zsets(db) && SlotsExact(db) && SlotsBounded(db) && db.wf.status == WfRunning && 0 < db.wf.total
    requires j in db.jobs && db.jobs[j].status == Running && NoDup(SuccessorsOf(db, j))
    requires IsPop(AfterSuccess(db, j).waiting, pick)
    requires s'.db == Promoting(AfterSuccess(db, j), SuccessPromotes(db), pick).0
    requires Shape(g, s') && Counted(s')
    ensures SlotsExact(s'.db)
  {
    if CompletesWorkflow(db.wf) {
      ExactCompletingSuccess(g, db, s', j, pick);
    } else {
      ExactContinuingSuccess(db, j, pick);
    }
  }

  lemma ExactRefusedSuccess(s: State, t: nat, now: int, pick: Option<JobId>, s': State)
    requires Custody(s) && SlotsExact(s.db) && t in s.tokens
    requires s.tokens[t].phase.Handling? && s.tokens[t].phase.outcome.Succeeded? && !SuccessApplies(s.db, s.tokens[t].job, now)
    requires s' == AfterHandleSuccess(s, t, now, pick)
    ensures SlotsExact(s'.db)
  {
    SoleHolder(s, t);
    RefusedSuccess(s.db, s.tokens[t].job, now, pick);
    ExactSame(s.db, s'.db);
  }

  lemma HandledSuccessStore(s: State, t: nat, now: int, pick: Option<JobId>)
    requires Custody(s) && Enabled(s, HandleSuccess(t, now, pick)) && SuccessApplies(s.db, s.tokens[t].job, now)
    ensures var j := s.tokens[t].job;
      && s.db.jobs[j].status == Running
      && AfterHandleSuccess(s, t, now, pick).db == Promoting(AfterSuccess(s.db, j), SuccessPromotes(s.db), pick).0
  {
    SoleHolder(s, t);
    AppliedSuccess(s.db, s.tokens[t].job, now, pick);
  }

  lemma ExactSuccess(g: Graph, s: State, t: nat, now: int, pick: Option<JobId>, s': State)
    requires Zsets(s.db) && Custody(s) && SlotsBounded(s.db) && SlotsExact(s.db) && Enabled(s, HandleSuccess(t, now, pick))
    requires NoDup(SuccessorsOf(s.db, s.tokens[t].job)) && 0 < s.db.wf.total
    requires s' == AfterHandleSuccess(s, t, now, pick) && Shape(g, s') && Counted(s')
    ensures SlotsExact(s'.db)
  {
    if SuccessApplies(s.db, s.tokens[t].job, now) {
      HandledSuccessStore(s, t, now, pick);
      ExactAppliedSuccess(g, s.db, s', s.tokens[t].job, pick);
    } else {
      ExactRefusedSuccess(s, t, now, pick, s');
    }
  }

  lemma ScheduleRetryExact(db: Store, j: JobId, retryCount: int, retryAt: int, pick: Option<JobId>)
    requires Zsets(db) && SlotsExact(db) && SlotsBounded(db) && db.wf.status != WfReady && db.wf.status != WfCompleted
    requires j in db.jobs && db.jobs[j].status == Running && IsPop(db.waiting, pick)
    ensures SlotsExact(ScheduleRetry(db, j, retryCount, retryAt, pick).0)
  {
    ScheduleRetrySlots(db, j, retryCount, retryAt, pick);
  }

  lemma ExactRetrySchedule(s: State, t: nat, retryAt: int, pick: Option<JobId>)
    requires Zsets(s.db) && Custody(s) && Lifecycle(s.db) && SlotsExact(s.db) && SlotsBounded(s.db)
    requires t in s.tokens && s.tokens[t].phase.Handling? && s.tokens[t].phase.outcome.FailedRun?
    requires s.tokens[t].job in s.db.jobs && IsPop(s.db.waiting, pick)
    ensures SlotsExact(AfterScheduleRetry(s, t, retryAt, pick).db)
  {
    ExactHolder(s, t);
    var j := s.tokens[t].job;
    if s.db.wf.status == WfReady { ReadyMeansNotRun(s, t); }
    ScheduleRetryExact(s.db, j, RetryCountAfter(s.db.jobs[j], s.tokens[t].phase.outcome), retryAt, pick);
  }

  /** With no early abort a terminal failure always ends a live workflow. */
  lemma ExactTerminalFailure(s: State, t: nat)
    requires Custody(s) && Lifecycle(s.db) && SlotsExact(s.db)
    requires t in s.tokens && s.tokens[t].phase.Handling? && !s.tokens[t].phase.outcome.Succeeded?
    requires s.tokens[t].job in s.db.jobs
    requires s.tokens[t].phase.outcome.AbortedRun? ==> s.db.wf.status != WfReady
    ensures AfterTerminalFailure(s, t).db.wf.status == WfFailed
  {
    ExactHolder(s, t);
    if s.db.wf.status == WfReady { ReadyMeansNotRun(s, t); }
  }

  lemma PromoteRetryNoCasualty(db: Store, j: JobId, pick: Option<JobId>)
    requires RetryApplies(db, j) && IsPop(RetryToWaiting(db, j).waiting, pick)
    requires forall k :: k in db.jobs ==> db.jobs[k].status != Failed && db.jobs[k].status != Aborted
    ensures var db' := PromoteRetry(db, j, pick).0;
      && db'.wf.status == WfRunning
      && forall k :: k in db'.jobs ==> db'.jobs[k].status != Failed && db'.jobs[k].status != Aborted
  {
  }

  lemma ExactRetry(s: State, t: nat, pick: Option<JobId>)
    requires Zsets(s.db) && Custody(s) && Lifecycle(s.db) && SlotsExact(s.db) && SlotsBounded(s.db)
    requires t in s.tokens && s.tokens[t].phase.RetryPopped?
    requires RetryApplies(s.db, s.tokens[t].job) ==> IsPop(RetryToWaiting(s.db, s.tokens[t].job).waiting, pick)
    ensures SlotsExact(AfterHandleRetry(s, t, pick).db)
  {
    ExactHolder(s, t);
    var j := s.tokens[t].job;
    if RetryApplies(s.db, j) {
      RetryAppliesSlots(s.db, j, pick);
      PromoteRetryNoCasualty(s.db, j, pick);
    } else {
      if s.db.wf.status == WfReady { ReadyMeansNotRun(s, t); }
      PromoteRetryStatus(s.db, j, pick);
      assert s.db.wf.status == WfFailed;
    }
  }

  lemma ExactFailure(s: State, t: nat, now: int, retryAt: int, pick: Option<JobId>)
    requires Zsets(s.db) && Custody(s) && Lifecycle(s.db) && SlotsExact(s.db) && SlotsBounded(s.db)
    requires Enabled(s, HandleFailure(t, now, retryAt, pick))
    requires s.tokens[t].phase.outcome.AbortedRun? ==> s.db.wf.status != WfReady
    ensures SlotsExact(Apply(s, HandleFailure(t, now, retryAt, pick)).db)
  {
    if TakesRetry(s, t, now) {
      ExactRetrySchedule(s, t, retryAt, pick);
    } else {
      ExactTerminalFailure(s, t);
    }
  }

  lemma ExactTokenStep(s: State, step: Step)
    requires Custody(s) && Lifecycle(s.db) && SlotsExact(s.db) && SlotsBounded(s.db) && Enabled(s, step)
    requires !step.HandleSuccess? && !step.HandleFailure? && !step.HandleRetry?
    ensures SlotsExact(Apply(s, step).db)
  {
    if step.ClaimJob? {
      ExactClaim(s, step.tok);
    } else if step.StartJob? {
      ExactStart(s, step.tok, step.now);
    } else if step.MarkAborted? {
      ExactMarkAborted(s, step.tok);
    } else {
      ExactSame(s.db, Apply(s, step).db);
    }
  }

  /** Without early aborts every step keeps the slots exact and the outcomes sound. */
  lemma StepExact(g: Graph, h: Hypotheses, s: State, step: Step)
    requires Inv(g, s) && SlotsExact(s.db) && Enabled(s, step) && h.noEarlyAbort && Respects(h, s, step)
    requires Inv(g, Apply(s, step))
    ensures SlotsExact(Apply(s, step).db)
  {
    if step.HandleSuccess? {
      HolderLists(g, s, step.tok);
      ExactSuccess(g, s, step.tok, step.now, step.pick, Apply(s, step));
    } else if step.HandleFailure? {
      ExactFailure(s, step.tok, step.now, step.retryAt, step.pick);
    } else if step.HandleRetry? {
      ExactRetry(s, step.tok, step.pick);
    } else {
      ExactTokenStep(s, step);
    }
  }

  // ---------------------------------------------------------------- no timeout, one handler

  /** Handlers: only Take makes a token a handler's, and only when no other is. */
  lemma StepOneHandler(s: State, s': State, t: nat, j: JobId)
    requires OneHandler(s) && OnlyToken(s.tokens, s'.tokens, t, j)
    requires t in s'.tokens && IsHandling(s'.tokens[t].phase) ==>
               (t in s.tokens && IsHandling(s.tokens[t].phase)) || forall u :: u in s.tokens ==> !IsHandling(s.tokens[u].phase)
    ensures OneHandler(s')
  {
  }

  lemma StepSeen(s: State, s': State, t: nat, j: JobId)
    requires SeenIsCurrent(s) && OnlyToken(s.tokens, s'.tokens, t, j)
    requires s.db.wf.status == WfRunning && s'.db.wf.status != WfRunning ==>
               forall u :: u in s.tokens && s.tokens[u].phase.Handling? ==> u == t
    requires t in s'.tokens && s'.tokens[t].phase.Handling? && s'.tokens[t].phase.seen == WfRunning ==>
               s'.db.wf.status == WfRunning
    ensures SeenIsCurrent(s')
  {
  }

  /** The success script is refused only to a handler that read another status than RUNNING. */
  lemma RefusedMeansNotSeen(s: State, t: nat, now: int)
    requires Custody(s) && SeenIsCurrent(s) && t in s.tokens
    requires s.tokens[t].phase.Handling? && s.tokens[t].phase.outcome.Succeeded?
    requires !WorkflowExpired(s.db.wf, now) && !SuccessApplies(s.db, s.tokens[t].job, now)
    ensures s.tokens[t].phase.seen != WfRunning
  {
    SoleHolder(s, t);
  }

  /** A success record ends its handler's work or is passed on as a failure; either way what the
      handler read stays true, or it is the only handler. */
  lemma SuccessHandlers(s: State, t: nat, now: int, pick: Option<JobId>)
    requires Enabled(s, HandleSuccess(t, now, pick)) && !WorkflowExpired(s.db.wf, now)
    requires Custody(s) && SeenIsCurrent(s)
    ensures var s' := AfterHandleSuccess(s, t, now, pick);
      t in s'.tokens && s'.tokens[t].phase.Handling? && s'.tokens[t].phase.seen == WfRunning ==> s'.db.wf.status == WfRunning
  {
    SoleHolder(s, t);
    var j := s.tokens[t].job;
    if SuccessApplies(s.db, j, now) {
      AppliedSuccess(s.db, j, now, pick);
    } else {
      RefusedSuccess(s.db, j, now, pick);
      RefusedMeansNotSeen(s, t, now);
    }
  }

  lemma TokenHandlers(s: State, step: Step)
    requires Enabled(s, step) && Custody(s) && Lifecycle(s.db) && SeenIsCurrent(s)
    requires step.HandleSuccess? ==> !WorkflowExpired(s.db.wf, step.now)
    ensures var s', t := Apply(s, step), step.tok;
      && (t in s'.tokens && s'.tokens[t].phase.Handling? && s'.tokens[t].phase.seen == WfRunning ==> s'.db.wf.status == WfRunning)
      && (t in s'.tokens && IsHandling(s'.tokens[t].phase) ==> step.Take? || (t in s.tokens && IsHandling(s.tokens[t].phase)))
  {
    if step.HandleSuccess? { SuccessHandlers(s, step.tok, step.now, step.pick); }
  }

  /** Only a handler's step takes the workflow out of RUNNING. */
  lemma RunningEndsInHandler(s: State, step: Step)
    requires Enabled(s, step) && Custody(s) && s.db.wf.status == WfRunning && Apply(s, step).db.wf.status != WfRunning
    ensures (step.HandleSuccess? || step.HandleFailure?) && step.tok in s.tokens && s.tokens[step.tok].phase.Handling?
  {
    if !step.Pop? && !step.PopRetry? { SoleHolder(s, step.tok); }
  }

  lemma StepHandlers(g: Graph, h: Hypotheses, s: State, step: Step)
    requires Enabled(s, step) && Respects(h, s, step) && h.noTimeout && h.oneHandler
    requires Custody(s) && Lifecycle(s.db) && OneHandler(s) && SeenIsCurrent(s)
    requires OnlyToken(s.tokens, Apply(s, step).tokens, step.tok, StepJob(s, step))
    ensures OneHandler(Apply(s, step)) && SeenIsCurrent(Apply(s, step))
  {
    var s', t, j := Apply(s, step), step.tok, StepJob(s, step);
    TokenHandlers(s, step);
    if s.db.wf.status == WfRunning && s'.db.wf.status != WfRunning { RunningEndsInHandler(s, step); }
    StepOneHandler(s, s', t, j);
    StepSeen(s, s', t, j);
  }

  /** In a FAILED workflow nothing becomes ready to run again. */
  lemma FailedStaysEmpty(s: State, s': State, j: JobId)
    requires NothingLeftToRun(s.db) && s.db.wf.status == WfFailed && BelongsTo(s.db, s'.db, j)
    requires j in s'.db.jobs ==> !IsWaitingToRun(s'.db.jobs[j].status)
    ensures NothingLeftToRun(s'.db)
  {
    forall k | k in s'.db.jobs ensures !IsWaitingToRun(s'.db.jobs[k].status) {
      if k != j { assert SideEffect(s.db, s'.db, k); }
    }
  }

  /** The failure that ends a RUNNING workflow aborts everything still waiting to run. */
  lemma FailureEmpties(db: Store, j: JobId, count: int, ids: seq<JobId>)
    requires j in db.jobs && db.wf.status == WfRunning && Elems(ids) == db.jobs.Keys
    ensures var db' := CompleteFailed(db, j, count, ids).0; db'.wf.status == WfFailed && NothingLeftToRun(db')
  {
    FailurePointwise(db, j, count, ids);
    forall k | k in db.jobs ensures k in ids {
      assert k in Elems(ids);
    }
  }

  /** In a FAILED workflow no step leaves its own job waiting to run. */
  lemma OwnJobNotWaiting(s: State, step: Step)
    requires Enabled(s, step) && Custody(s) && Zsets(s.db) && NothingLeftToRun(s.db) && SeenIsCurrent(s)
    requires s.db.wf.status == WfFailed
    ensures var j, s' := StepJob(s, step), Apply(s, step); j in s'.db.jobs ==> !IsWaitingToRun(s'.db.jobs[j].status)
  {
    if !step.Pop? && !step.PopRetry? { SoleHolder(s, step.tok); }
    if step.HandleFailure? {
      var j := s.tokens[step.tok].job;
      FailurePointwise(s.db, j, RetryCountAfter(s.db.jobs[j], s.tokens[step.tok].phase.outcome), s.roster);
    }
  }

  lemma StepEmptyFailed(s: State, step: Step)
    requires Enabled(s, step) && Custody(s) && Zsets(s.db) && NothingLeftToRun(s.db) && SeenIsCurrent(s)
    requires s.db.wf.status == WfFailed && BelongsTo(s.db, Apply(s, step).db, StepJob(s, step))
    ensures NothingLeftToRun(Apply(s, step).db)
  {
    OwnJobNotWaiting(s, step);
    FailedStaysEmpty(s, Apply(s, step), StepJob(s, step));
  }

  lemma SuccessDoesNotFail(db: Store, j: JobId, now: int, pick: Option<JobId>)
    requires !WorkflowExpired(db.wf, now) && db.wf.status != WfFailed
    requires SuccessApplies(db, j, now) ==> IsPop(AfterSuccess(db, j).waiting, pick)
    ensures CompleteSuccessful(db, j, now, pick).0.wf.status != WfFailed
  {
  }

  lemma RetryKeepsStatus(db: Store, j: JobId, pick: Option<JobId>)
    requires RetryApplies(db, j) ==> IsPop(RetryToWaiting(db, j).waiting, pick)
    ensures PromoteRetry(db, j, pick).0.wf.status == db.wf.status
  {
  }

  lemma StartDoesNotFail(db: Store, j: JobId, now: int)
    requires j in db.jobs && db.jobs[j].status == PendingExecution
    requires db.wf.status == WfRunning || (db.wf.status == WfReady && db.wf.startTime.None?)
    ensures TryStart(db, j, now).0.wf.status == WfRunning
  {
  }

  lemma ClaimedDoesNotFail(g: Graph, s: State, t: nat, now: int)
    requires Shape(g, s) && Custody(s) && Lifecycle(s.db) && Counted(s)
    requires s.db.wf.status != WfFailed && t in s.tokens && s.tokens[t].phase.Claimed?
    ensures AfterStart(s, t, now).db.wf.status != WfFailed
  {
    SoleHolder(s, t);
    NotCompleted(g, s, s.tokens[t].job);
    StartDoesNotFail(s.db, s.tokens[t].job, now);
  }

  lemma HandledDoesNotFail(s: State, step: Step)
    requires Enabled(s, step) && s.db.wf.status != WfFailed && (step.HandleSuccess? || step.HandleRetry?)
    requires step.HandleSuccess? ==> !WorkflowExpired(s.db.wf, step.now)
    ensures Apply(s, step).db.wf.status != WfFailed
  {
    if step.HandleSuccess? {
      SuccessDoesNotFail(s.db, s.tokens[step.tok].job, step.now, step.pick);
    } else {
      RetryKeepsStatus(s.db, s.tokens[step.tok].job, step.pick);
    }
  }

  lemma QuietKeepsStatus(s: State, step: Step)
    requires Enabled(s, step)
    requires !step.StartJob? && !step.HandleSuccess? && !step.HandleFailure? && !step.HandleRetry?
    ensures Apply(s, step).db.wf == s.db.wf
  {
  }

  /** Without timeouts only the terminal failure of a job fails the workflow. */
  lemma OnlyFailureFails(g: Graph, s: State, step: Step)
    requires Enabled(s, step) && (step.HandleSuccess? ==> !WorkflowExpired(s.db.wf, step.now))
    requires Shape(g, s) && Custody(s) && Lifecycle(s.db) && Counted(s)
    requires s.db.wf.status != WfFailed && !step.HandleFailure?
    ensures Apply(s, step).db.wf.status != WfFailed
  {
    if step.StartJob? {
      ClaimedDoesNotFail(g, s, step.tok, step.now);
    } else if step.HandleSuccess? || step.HandleRetry? {
      HandledDoesNotFail(s, step);
    } else {
      QuietKeepsStatus(s, step);
    }
  }

  lemma HandleFailureEmpties(g: Graph, s: State, t: nat, now: int, retryAt: int, pick: Option<JobId>)
    requires Enabled(s, HandleFailure(t, now, retryAt, pick)) && Shape(g, s) && s.db.wf.status != WfFailed
    ensures NothingLeftToRun(Apply(s, HandleFailure(t, now, retryAt, pick)).db)
  {
    var j := s.tokens[t].job;
    if !TakesRetry(s, t, now) && s.db.wf.status == WfRunning {
      FailureEmpties(s.db, j, RetryCountAfter(s.db.jobs[j], s.tokens[t].phase.outcome), s.roster);
    }
  }

  lemma StepEmpties(g: Graph, h: Hypotheses, s: State, step: Step)
    requires Enabled(s, step) && Respects(h, s, step) && h.noTimeout && h.oneHandler
    requires Shape(g, s) && Custody(s) && Zsets(s.db) && Lifecycle(s.db) && Counted(s)
    requires NothingLeftToRun(s.db) && SeenIsCurrent(s)
    requires BelongsTo(s.db, Apply(s, step).db, StepJob(s, step))
    ensures NothingLeftToRun(Apply(s, step).db)
  {
    if s.db.wf.status == WfFailed {
      StepEmptyFailed(s, step);
    } else if step.HandleFailure? {
      HandleFailureEmpties(g, s, step.tok, step.now, step.retryAt, step.pick);
    } else {
      OnlyFailureFails(g, s, step);
    }
  }

  /** Outside a RUNNING workflow no job is parked. */
  lemma ParkedMeansRunning(g: Graph, s: State, j: JobId)
    requires Shape(g, s) && Counted(s) && Lifecycle(s.db) && NothingLeftToRun(s.db)
    requires j in s.db.jobs && s.db.wf.status != WfRunning
    ensures s.db.jobs[j].status != RetryDelay
  {
    if s.db.wf.status == WfCompleted && !IsTerminal(s.db.jobs[j].status) { NotCompleted(g, s, j); }
  }

  /** A popped retry entry outside a RUNNING workflow was already aborted and counted. */
  lemma RetryEntrySettled(s: State, t: nat)
    requires Custody(s) && t in s.tokens && s.tokens[t].phase.RetryPopped?
    requires s.tokens[t].job in s.db.jobs && s.db.jobs[s.tokens[t].job].status != RetryDelay
    ensures SettledHere(s, t, s.tokens[t].job)
  {
    SoleHolder(s, t);
  }

  lemma PropagatedCounts(g: Graph, s: State, step: Step)
    requires Enabled(s, step) && Shape(g, s) && Zsets(s.db) && Custody(s)
    requires Dependencies(g, s.db) && Lifecycle(s.db) && Counted(s) && NothingLeftToRun(s.db)
    ensures CountsExactly(s, Apply(s, step), step.tok, StepJob(s, step))
  {
    if step.HandleRetry? {
      HandleRetryCounts(s, Apply(s, step), step.tok, step.pick);
      if s.db.wf.status != WfRunning {
        SoleHolder(s, step.tok);
        ParkedMeansRunning(g, s, s.tokens[step.tok].job);
        RetryEntrySettled(s, step.tok);
      }
    } else {
      StepCountsExactly(g, s, step);
    }
  }

  /** Without timeouts and with one handler every step keeps propagation complete. */
  lemma StepPropagated(g: Graph, h: Hypotheses, s: State, step: Step)
    requires Inv(g, s) && Propagated(s) && Enabled(s, step) && Respects(h, s, step) && h.noTimeout && h.oneHandler
    requires Inv(g, Apply(s, step))
    ensures Propagated(Apply(s, step))
  {
    var s', t, j := Apply(s, step), step.tok, StepJob(s, step);
    StepShaped(g, s, step);
    StepHandlers(g, h, s, step);
    StepEmpties(g, h, s, step);
    PropagatedCounts(g, s, step);
    if CountsAll(s, s', t, j) {
      CountedMore(g, s, s', t, j);
    } else {
      CountedQuiet(s, s', t, j);
    }
  }
}
