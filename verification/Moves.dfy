/** The life cycle of a job: which status changes a step may make to the job it belongs to. */
module Moves {
  import opened Basics
  import opened Dag
  import opened Runtime
  import opened WorkflowScripts
  import opened Protocol
  import opened Invariants
  import opened Effects
  import opened TokenSteps
  import opened ScriptSteps
  import opened DependencyProofs
  import opened Preservation

  /** The step may take its own job from status `a` to status `b`. */
  predicate OwnMove(step: Step, a: JobStatus, b: JobStatus) {
    match step
    case Pop(_, _) => a == Queued && b == Queued
    case ClaimJob(_) => (a == Queued && b == PendingExecution) || (a == Aborted && b == Aborted)
    case PayloadFails(_) => a == PendingExecution && b == PendingExecution
    case StartJob(_, _) => a == PendingExecution && (b == Running || b == Aborted)
    case Finish(_, _) => a == Running && b == Running
    case Take(_) => b == a && !IsWaitingToRun(a)
    case HandleSuccess(_, _, _) => a == Running && (b == Completed || b == Running)
    case HandleFailure(_, _, _, _) =>
      (a == Running && b == RetryDelay) || ((a == Running || a == PendingExecution || a == Aborted) && b == Failed)
    case MarkAborted(_) => a == Failed && b == Aborted
    case PopRetry(_, _, _) => a == RetryDelay && b == RetryDelay
    case HandleRetry(_, _) =>
      (a == RetryDelay && (b == Ready || b == Queued || b == Aborted)) || (a == Aborted && b == Aborted)
  }

  /** The step moves its own job along the life cycle. */
  ghost predicate MovesOwn(s: State, step: Step)
    requires Enabled(s, step)
  {
    var j, s' := StepJob(s, step), Apply(s, step);
    j in s.db.jobs && j in s'.db.jobs && OwnMove(step, s.db.jobs[j].status, s'.db.jobs[j].status)
  }

  lemma HandleSuccessMove(g: Graph, s: State, t: nat, now: int, pick: Option<JobId>)
    requires Zsets(s.db) && Custody(s) && s.db.jobs.Keys == g.Keys && Dependencies(g, s.db)
    requires t in s.tokens && s.tokens[t].phase.Handling? && s.tokens[t].phase.outcome.Succeeded?
    requires SuccessApplies(s.db, s.tokens[t].job, now) ==> IsPop(AfterSuccess(s.db, s.tokens[t].job).waiting, pick)
    ensures var j, s' := s.tokens[t].job, AfterHandleSuccess(s, t, now, pick);
      && j in s.db.jobs && j in s'.db.jobs && s.db.jobs[j].status == Running
      && s'.db.jobs[j].status == (if SuccessApplies(s.db, j, now) then Completed else Running)
  {
    SoleHolder(s, t);
    var j := s.tokens[t].job;
    if SuccessApplies(s.db, j, now) {
      assert ListsSuccessors(g, s.db, j);
      AppliedSuccess(s.db, j, now, pick);
      AppliedSuccessBelongs(s.db, j, SuccessPromotes(s.db), pick);
    } else {
      RefusedSuccess(s.db, j, now, pick);
    }
  }

  lemma HandleFailureMove(s: State, t: nat, now: int, retryAt: int, pick: Option<JobId>)
    requires Enabled(s, HandleFailure(t, now, retryAt, pick)) && Zsets(s.db) && Custody(s)
    ensures var j, s' := s.tokens[t].job, Apply(s, HandleFailure(t, now, retryAt, pick));
      && j in s'.db.jobs
      && OwnMove(HandleFailure(t, now, retryAt, pick), s.db.jobs[j].status, s'.db.jobs[j].status)
      && (s'.db.jobs[j].status == RetryDelay <==> TakesRetry(s, t, now))
      && s'.db.jobs[j].retryCount == RetryCountAfter(s.db.jobs[j], s.tokens[t].phase.outcome)
      && s'.db.jobs[j].maxRetries == s.db.jobs[j].maxRetries
  {
    SoleHolder(s, t);
    var j := s.tokens[t].job;
    if !TakesRetry(s, t, now) {
      FailurePointwise(s.db, j, RetryCountAfter(s.db.jobs[j], s.tokens[t].phase.outcome), s.roster);
    }
  }

  lemma HandleRetryMove(s: State, t: nat, pick: Option<JobId>)
    requires Enabled(s, HandleRetry(t, pick)) && Zsets(s.db) && Custody(s)
    ensures var j, s' := s.tokens[t].job, AfterHandleRetry(s, t, pick);
      && j in s.db.jobs && j in s'.db.jobs
      && OwnMove(HandleRetry(t, pick), s.db.jobs[j].status, s'.db.jobs[j].status)
  {
    SoleHolder(s, t);
    PromoteRetryBelongs(s.db, s.tokens[t].job, pick);
    PromoteRetryStatus(s.db, s.tokens[t].job, pick);
  }

  lemma TokenMove(s: State, step: Step)
    requires Enabled(s, step) && Zsets(s.db) && Custody(s)
    requires !step.HandleSuccess? && !step.HandleFailure? && !step.HandleRetry?
    ensures var j, s' := StepJob(s, step), Apply(s, step);
      && j in s.db.jobs && j in s'.db.jobs
      && OwnMove(step, s.db.jobs[j].status, s'.db.jobs[j].status)
  {
    if !step.Pop? && !step.PopRetry? { SoleHolder(s, step.tok); }
    if step.StartJob? { StartEffect(s.db, s.tokens[step.tok].job, step.now); }
  }

  lemma SuccessMovesOwn(g: Graph, s: State, t: nat, now: int, pick: Option<JobId>)
    requires Enabled(s, HandleSuccess(t, now, pick)) && Zsets(s.db) && Custody(s)
    requires s.db.jobs.Keys == g.Keys && Dependencies(g, s.db)
    ensures MovesOwn(s, HandleSuccess(t, now, pick))
  {
    HandleSuccessMove(g, s, t, now, pick);
  }

  lemma FailureMovesOwn(s: State, t: nat, now: int, retryAt: int, pick: Option<JobId>)
    requires Enabled(s, HandleFailure(t, now, retryAt, pick)) && Zsets(s.db) && Custody(s)
    ensures MovesOwn(s, HandleFailure(t, now, retryAt, pick))
  {
    HandleFailureMove(s, t, now, retryAt, pick);
  }

  lemma RetryMovesOwn(s: State, t: nat, pick: Option<JobId>)
    requires Enabled(s, HandleRetry(t, pick)) && Zsets(s.db) && Custody(s)
    ensures MovesOwn(s, HandleRetry(t, pick))
  {
    HandleRetryMove(s, t, pick);
  }

  /** Every step moves its own job along the life cycle. */
  lemma StepMove(g: Graph, s: State, step: Step)
    requires Enabled(s, step) && Zsets(s.db) && Custody(s) && s.db.jobs.Keys == g.Keys && Dependencies(g, s.db)
    ensures MovesOwn(s, step)
  {
    if step.HandleSuccess? {
      SuccessMovesOwn(g, s, step.tok, step.now, step.pick);
    } else if step.HandleFailure? {
      FailureMovesOwn(s, step.tok, step.now, step.retryAt, step.pick);
    } else if step.HandleRetry? {
      RetryMovesOwn(s, step.tok, step.pick);
    } else {
      TokenMove(s, step);
    }
  }

  /** What a step may do to the status of a job it does not belong to. */
  predicate OtherMove(a: JobStatus, b: JobStatus) {
    || b == a
    || (a == Pending && b == Ready)
    || ((a == Pending || a == Ready) && b == Queued)
    || (IsWaitingToRun(a) && b == Aborted)
  }

  predicate JobMove(step: Step, own: bool, a: JobStatus, b: JobStatus) {
    if own then OwnMove(step, a, b) else OtherMove(a, b)
  }

  /** The life cycle of every job, in every step. */
  lemma StepJobMove(g: Graph, s: State, step: Step, j: JobId)
    requires Enabled(s, step) && Inv(g, s) && j in s.db.jobs
    ensures j in Apply(s, step).db.jobs
    ensures JobMove(step, j == StepJob(s, step), s.db.jobs[j].status, Apply(s, step).db.jobs[j].status)
  {
    StepShaped(g, s, step);
    OthersMove(s, Apply(s, step), StepJob(s, step), j);
    StepMove(g, s, step);
  }

  /** COMPLETED is final; FAILED and ABORTED jobs never get anywhere else; only a start makes a
      job RUNNING. */
  lemma MovesAreOneWay(step: Step, own: bool, a: JobStatus, b: JobStatus)
    requires JobMove(step, own, a, b)
    ensures a == Completed ==> b == Completed
    ensures a == Failed || a == Aborted ==> b == Failed || b == Aborted
    ensures b == Running && a != Running ==> own && step.StartJob?
    ensures b == Completed && a != Completed ==> own && a == Running
    ensures b == Failed && a != Failed ==> own && step.HandleFailure?
  {
  }

  lemma OthersMove(s: State, s': State, own: JobId, j: JobId)
    requires BelongsTo(s.db, s'.db, own) && j in s.db.jobs
    ensures j in s'.db.jobs && (j != own ==> OtherMove(s.db.jobs[j].status, s'.db.jobs[j].status))
  {
    if j != own { assert SideEffect(s.db, s'.db, j); }
  }
}
