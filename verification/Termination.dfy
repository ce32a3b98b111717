/** Every run is finite: each step uses up some of the work the workflow was admitted with. */
module Termination {
  import opened Basics
  import opened Dag
  import opened Sums
  import opened Runtime
  import opened WorkflowScripts
  import opened JobScripts
  import opened Protocol
  import opened Invariants
  import opened Effects
  import opened TokenSteps
  import opened ScriptSteps
  import opened DependencyProofs
  import opened Preservation
  import opened Moves
  import opened Runs
  import opened OutcomeTheorems

  function RetriesLeft(job: Job): nat {
    Max(0, job.maxRetries - job.retryCount)
  }

  function Rank(st: JobStatus): nat {
    match st
    case Pending => 9
    case Ready => 9
    case RetryDelay => 9
    case Queued => 7
    case PendingExecution => 1
    case Running => 1
    case _ => 0
  }

  /** The steps job `j` may still cause, apart from those its token will take. */
  function JobWork(db: Store, j: JobId): nat
    requires j in db.jobs
  {
    9 * RetriesLeft(db.jobs[j]) + Rank(db.jobs[j].status)
    + (if j in db.queue then 2 else 0) + (if j in db.retries then 2 else 0)
  }

  /** The steps a token may still take before it is dropped. */
  function TokenWork(p: Phase): nat {
    match p
    case Popped => 1
    case Claimed => 6
    case Executing => 5
    case InStream(_) => 4
    case Handling(o, _) => if o.Succeeded? then 3 else 2
    case MarkingAborted => 1
    case RetryPopped => 1
  }

  function JobWorks(db: Store): map<JobId, nat> {
    map j | j in db.jobs :: JobWork(db, j)
  }

  function TokenWorks(tokens: map<nat, Token>): map<nat, nat> {
    map t | t in tokens :: TokenWork(tokens[t].phase)
  }

  /** The work left in a state. */
  ghost function Work(s: State): nat {
    Sum(JobWorks(s.db)) + Sum(TokenWorks(s.tokens))
  }

  // ---------------------------------------------------------------- the other jobs

  lemma OthersDoNotGrow(db: Store, db': Store, k: JobId)
    requires Zsets(db) && k in db.jobs && k in db'.jobs && SideEffect(db, db', k)
    ensures JobWork(db', k) <= JobWork(db, k)
  {
  }

  lemma JobWorksChange(db: Store, db': Store, j: JobId)
    requires Zsets(db) && BelongsTo(db, db', j) && j in db.jobs
    ensures Sum(JobWorks(db')) + JobWork(db, j) <= Sum(JobWorks(db)) + JobWork(db', j)
  {
    forall k | k != j && k in db.jobs ensures JobWorks(db')[k] <= JobWorks(db)[k] {
      assert SideEffect(db, db', k);
      OthersDoNotGrow(db, db', k);
    }
    SumChange(JobWorks(db), JobWorks(db'), j);
  }

  function WorkOf(tokens: map<nat, Token>, t: nat): nat {
    if t in tokens then TokenWork(tokens[t].phase) else 0
  }

  lemma TokenWorksChange(tokens: map<nat, Token>, tokens': map<nat, Token>, t: nat, j: JobId)
    requires OnlyToken(tokens, tokens', t, j)
    ensures Sum(TokenWorks(tokens')) + WorkOf(tokens, t) <= Sum(TokenWorks(tokens)) + WorkOf(tokens', t)
  {
    SumChange(TokenWorks(tokens), TokenWorks(tokens'), t);
  }

  // ---------------------------------------------------------------- the step's own job and token

  predicate SameAttempts(a: Job, b: Job) {
    b.retryCount == a.retryCount && b.maxRetries == a.maxRetries
  }

  lemma PromotingAttempts(db: Store, slotFree: bool, pick: Option<JobId>, j: JobId)
    requires pick.Some? ==> pick.value in db.waiting
    requires j in db.jobs
    ensures var db' := Promoting(db, slotFree, pick).0; j in db'.jobs && SameAttempts(db.jobs[j], db'.jobs[j])
  {
  }

  lemma SuccessAttempts(g: Graph, db: Store, j: JobId, now: int, pick: Option<JobId>)
    requires db.jobs.Keys == g.Keys && Dependencies(g, db) && j in db.jobs && db.jobs[j].status == Running
    requires SuccessApplies(db, j, now) ==> IsPop(AfterSuccess(db, j).waiting, pick)
    ensures var db' := CompleteSuccessful(db, j, now, pick).0; j in db'.jobs && SameAttempts(db.jobs[j], db'.jobs[j])
  {
    if SuccessApplies(db, j, now) {
      assert ListsSuccessors(g, db, j);
      SuccessPointwise(db, j);
      AppliedSuccess(db, j, now, pick);
      PromotingAttempts(AfterSuccess(db, j), SuccessPromotes(db), pick, j);
    } else {
      RefusedSuccess(db, j, now, pick);
    }
  }

  lemma PromoteRetryAttempts(db: Store, j: JobId, pick: Option<JobId>)
    requires j in db.jobs
    requires RetryApplies(db, j) ==> IsPop(RetryToWaiting(db, j).waiting, pick)
    ensures var db' := PromoteRetry(db, j, pick).0; j in db'.jobs && SameAttempts(db.jobs[j], db'.jobs[j])
  {
    if RetryApplies(db, j) {
      PromotingAttempts(RetryToWaiting(db, j), db.wf.reserved < db.wf.maxConcurrent, pick, j);
    }
  }

  lemma StartAttempts(db: Store, j: JobId, now: int)
    requires j in db.jobs
    ensures var db' := TryStart(db, j, now).0; j in db'.jobs && SameAttempts(db.jobs[j], db'.jobs[j])
  {
  }

  lemma TokenStepAttempts(s: State, step: Step)
    requires Enabled(s, step) && StepJob(s, step) in s.db.jobs
    requires !step.HandleSuccess? && !step.HandleFailure? && !step.HandleRetry?
    ensures var j, s' := StepJob(s, step), Apply(s, step);
      j in s'.db.jobs && SameAttempts(s.db.jobs[j], s'.db.jobs[j])
  {
    if step.StartJob? { StartAttempts(s.db, s.tokens[step.tok].job, step.now); }
  }

  /** Only the failure path touches the attempt counter of the step's own job. */
  lemma StepAttempts(g: Graph, s: State, step: Step)
    requires Enabled(s, step) && !step.HandleFailure? && StepJob(s, step) in s.db.jobs
    requires step.HandleSuccess? ==> s.db.jobs[StepJob(s, step)].status == Running
    requires s.db.jobs.Keys == g.Keys && Dependencies(g, s.db)
    ensures var j, s' := StepJob(s, step), Apply(s, step);
      j in s'.db.jobs && SameAttempts(s.db.jobs[j], s'.db.jobs[j])
  {
    match step
    case HandleSuccess(t, now, pick) => SuccessAttempts(g, s.db, s.tokens[t].job, now, pick);
    case HandleRetry(t, pick) => PromoteRetryAttempts(s.db, s.tokens[t].job, pick);
    case _ => TokenStepAttempts(s, step);
  }

  /** Upper bound on a job's work from its status alone. */
  lemma WorkBound(db: Store, j: JobId)
    requires Zsets(db) && j in db.jobs
    ensures JobWork(db, j) <= 9 * RetriesLeft(db.jobs[j]) + Rank(db.jobs[j].status)
                              + (if db.jobs[j].status == Queued || db.jobs[j].status == RetryDelay then 2 else 0)
  {
  }

  lemma FailedJobWork(a: Job, b: Job, o: Outcome, retry: bool)
    requires !o.Succeeded? && b.maxRetries == a.maxRetries && b.retryCount == RetryCountAfter(a, o)
    requires retry ==> o.FailedRun? && RetryCountAfter(a, o) <= a.maxRetries
    ensures RetriesLeft(b) + (if retry then 1 else 0) <= RetriesLeft(a)
  {
  }

  lemma FailureTokenWork(s: State, t: nat, now: int, retryAt: int, pick: Option<JobId>)
    requires Enabled(s, HandleFailure(t, now, retryAt, pick))
    ensures var s' := Apply(s, HandleFailure(t, now, retryAt, pick));
      && WorkOf(s.tokens, t) == 2 && WorkOf(s'.tokens, t) <= 1
      && (TakesRetry(s, t, now) ==> WorkOf(s'.tokens, t) == 0)
  {
  }

  lemma FailureUsesWork(s: State, t: nat, now: int, retryAt: int, pick: Option<JobId>)
    requires Enabled(s, HandleFailure(t, now, retryAt, pick)) && Zsets(s.db) && Custody(s)
    requires Zsets(Apply(s, HandleFailure(t, now, retryAt, pick)).db)
    ensures var j, s' := s.tokens[t].job, Apply(s, HandleFailure(t, now, retryAt, pick));
      && j in s'.db.jobs
      && JobWork(s'.db, j) + WorkOf(s'.tokens, t) < JobWork(s.db, j) + WorkOf(s.tokens, t)
  {
    var j, s' := s.tokens[t].job, Apply(s, HandleFailure(t, now, retryAt, pick));
    HandleFailureMove(s, t, now, retryAt, pick);
    FailedJobWork(s.db.jobs[j], s'.db.jobs[j], s.tokens[t].phase.outcome, TakesRetry(s, t, now));
    FailureTokenWork(s, t, now, retryAt, pick);
    WorkBound(s'.db, j);
  }

  /** What the token loses in a step, and gains by the steps that take a job over. */
  predicate TokenTrades(step: Step, before: nat, after: nat, b: JobStatus) {
    match step
    case Pop(_, _) => after <= before + 1
    case PopRetry(_, _, _) => after <= before + 1
    case ClaimJob(_) => if b == PendingExecution then after <= before + 5 else after < before
    case _ => after < before
  }

  lemma TokenTradesWork(s: State, step: Step)
    requires Enabled(s, step) && !step.HandleFailure?
    requires step.ClaimJob? ==> StepJob(s, step) in s.db.jobs
    requires step.StartJob? || step.ClaimJob? || step.HandleSuccess? ==> StepJob(s, step) in Apply(s, step).db.jobs
    ensures TokenTrades(step, WorkOf(s.tokens, step.tok), WorkOf(Apply(s, step).tokens, step.tok),
                        if StepJob(s, step) in Apply(s, step).db.jobs then Apply(s, step).db.jobs[StepJob(s, step)].status else Completed)
  {
  }

  lemma MoveUsesWork(s: State, step: Step, s': State, j: JobId)
    requires Enabled(s, step) && !step.HandleFailure? && s' == Apply(s, step) && j == StepJob(s, step)
    requires j in s.db.jobs && j in s'.db.jobs && SameAttempts(s.db.jobs[j], s'.db.jobs[j])
    requires OwnMove(step, s.db.jobs[j].status, s'.db.jobs[j].status)
    requires Zsets(s'.db)
    ensures JobWork(s'.db, j) + WorkOf(s'.tokens, step.tok) < JobWork(s.db, j) + WorkOf(s.tokens, step.tok)
  {
    WorkBound(s'.db, j);
    TokenTradesWork(s, step);
  }

  lemma OwnUsesWork(g: Graph, s: State, step: Step)
    requires Enabled(s, step)
    requires Zsets(s.db) && Custody(s) && s.db.jobs.Keys == g.Keys && Dependencies(g, s.db)
    requires Zsets(Apply(s, step).db)
    ensures var j, s' := StepJob(s, step), Apply(s, step);
      && j in s.db.jobs && j in s'.db.jobs
      && JobWork(s'.db, j) + WorkOf(s'.tokens, step.tok) < JobWork(s.db, j) + WorkOf(s.tokens, step.tok)
  {
    if step.HandleFailure? {
      FailureUsesWork(s, step.tok, step.now, step.retryAt, step.pick);
    } else {
      StepMove(g, s, step);
      StepAttempts(g, s, step);
      MoveUsesWork(s, step, Apply(s, step), StepJob(s, step));
    }
  }

  /** Every step of every run, whatever the interleaving, uses up work. */
  lemma StepUsesWork(g: Graph, s: State, step: Step)
    requires Enabled(s, step) && Inv(g, s)
    ensures Work(Apply(s, step)) < Work(s)
  {
    StepShaped(g, s, step);
    var s', j := Apply(s, step), StepJob(s, step);
    OwnUsesWork(g, s, step);
    JobWorksChange(s.db, s'.db, j);
    TokenWorksChange(s.tokens, s'.tokens, step.tok, j);
  }

  // ---------------------------------------------------------------- runs

  function Length(r: Run): nat {
    match r case Admitted(_) => 0 case Then(before, _, _) => Length(before) + 1
  }

  /** Nine steps for each attempt a job may make. */
  function StepBudget(jobs: map<JobId, Job>): map<JobId, nat> {
    map j | j in jobs :: 9 * (Max(0, jobs[j].maxRetries) + 1)
  }

  lemma InitialJobWork(g: Graph, db: Store, j: JobId)
    requires j in g && j in db.jobs && InitialJob(g, j, db.jobs[j]) && db.retries == map[]
    requires j in db.queue <==> db.jobs[j].status == Queued
    ensures JobWork(db, j) == 9 * (Max(0, db.jobs[j].maxRetries) + 1)
  {
  }

  lemma InitialJobWorks(g: Graph, db: Store)
    requires db.jobs.Keys == g.Keys && db.retries == map[]
    requires forall j {:trigger InitialJob(g, j, db.jobs[j])} :: j in g ==> InitialJob(g, j, db.jobs[j])
    requires db.queue.Keys == WithStatus(db.jobs, Queued)
    ensures JobWorks(db) == StepBudget(db.jobs)
  {
    forall j | j in db.jobs ensures JobWork(db, j) == StepBudget(db.jobs)[j] {
      assert j in db.queue <==> j in WithStatus(db.jobs, Queued);
      InitialJobWork(g, db, j);
    }
  }

  lemma InitialWork(g: Graph, s: State)
    requires Initial(g, s)
    ensures Work(s) == Sum(StepBudget(s.db.jobs))
  {
    InitialJobWorks(g, s.db);
    assert TokenWorks(s.tokens) == map[];
  }

  lemma {:induction false} LengthAndWork(g: Graph, h: Hypotheses, r: Run)
    requires IsRun(g, h, r)
    ensures Length(r) + Work(Last(r)) <= Sum(StepBudget(First(r).db.jobs))
  {
    match r
    case Admitted(s) => InitialWork(g, s);
    case Then(before, step, s) =>
      LengthAndWork(g, h, before);
      RunReachable(g, h, before);
      StepUsesWork(g, Last(before), step);
  }

  /** No run takes more than nine steps for each attempt of each job. */
  lemma RunsAreBounded(g: Graph, h: Hypotheses, r: Run)
    requires IsRun(g, h, r)
    ensures Length(r) <= Sum(StepBudget(First(r).db.jobs))
  {
    LengthAndWork(g, h, r);
  }

  // ---------------------------------------------------------------- attempts of one job

  ghost function Starts(r: Run, j: JobId): nat {
    match r
    case Admitted(_) => 0
    case Then(before, step, _) => Starts(before, j) + if IsStartOf(Last(before), step, j) then 1 else 0
  }

  /** How often a job may still be started. */
  function StartsLeft(job: Job): nat {
    if IsTerminal(job.status) then 0
    else if job.status == Running then RetriesLeft(job)
    else RetriesLeft(job) + 1
  }

  lemma FailureStartsLeft(s: State, t: nat, now: int, retryAt: int, pick: Option<JobId>)
    requires Enabled(s, HandleFailure(t, now, retryAt, pick)) && Zsets(s.db) && Custody(s)
    ensures var j, s' := s.tokens[t].job, Apply(s, HandleFailure(t, now, retryAt, pick));
      j in s'.db.jobs && StartsLeft(s'.db.jobs[j]) <= StartsLeft(s.db.jobs[j])
  {
    var j, s' := s.tokens[t].job, Apply(s, HandleFailure(t, now, retryAt, pick));
    HandleFailureMove(s, t, now, retryAt, pick);
    FailedJobWork(s.db.jobs[j], s'.db.jobs[j], s.tokens[t].phase.outcome, TakesRetry(s, t, now));
  }

  lemma MoveStartsLeft(step: Step, a: Job, b: Job)
    requires !step.HandleFailure? && OwnMove(step, a.status, b.status) && SameAttempts(a, b)
    ensures StartsLeft(b) + (if step.StartJob? then 1 else 0) <= StartsLeft(a)
  {
  }

  lemma OwnStartsLeft(g: Graph, s: State, step: Step)
    requires Enabled(s, step)
    requires Zsets(s.db) && Custody(s) && s.db.jobs.Keys == g.Keys && Dependencies(g, s.db)
    ensures var j, s' := StepJob(s, step), Apply(s, step);
      && j in s.db.jobs && j in s'.db.jobs
      && StartsLeft(s'.db.jobs[j]) + (if step.StartJob? then 1 else 0) <= StartsLeft(s.db.jobs[j])
  {
    if step.HandleFailure? {
      FailureStartsLeft(s, step.tok, step.now, step.retryAt, step.pick);
    } else {
      StepMove(g, s, step);
      StepAttempts(g, s, step);
      MoveStartsLeft(step, s.db.jobs[StepJob(s, step)], Apply(s, step).db.jobs[StepJob(s, step)]);
    }
  }

  lemma OtherStartsLeft(db: Store, db': Store, own: JobId, j: JobId)
    requires BelongsTo(db, db', own) && j in db.jobs && j != own
    ensures j in db'.jobs && StartsLeft(db'.jobs[j]) <= StartsLeft(db.jobs[j])
  {
    assert SideEffect(db, db', j);
  }

  lemma StepStartsLeft(g: Graph, s: State, step: Step, s': State, j: JobId)
    requires Enabled(s, step) && s' == Apply(s, step) && j in s.db.jobs
    requires CustodyInv(s) && s.db.jobs.Keys == g.Keys && Dependencies(g, s.db) && s.db.wf.status != WfCanceled
    ensures j in s'.db.jobs
    ensures StartsLeft(s'.db.jobs[j]) + (if step.StartJob? && j == StepJob(s, step) then 1 else 0) <= StartsLeft(s.db.jobs[j])
  {
    if j == StepJob(s, step) {
      OwnStartsLeft(g, s, step);
    } else {
      StepShaped(g, s, step);
      OtherStartsLeft(s.db, s'.db, StepJob(s, step), j);
    }
  }

  lemma InitialStartsLeft(g: Graph, s: State, j: JobId)
    requires Initial(g, s) && j in g
    ensures j in s.db.jobs && StartsLeft(s.db.jobs[j]) == Max(0, s.db.jobs[j].maxRetries) + 1
  {
    assert InitialJob(g, j, s.db.jobs[j]);
  }

  /** A job is started at most once, plus once for each retry its policy allows. */
  lemma {:induction false} AttemptsBounded(g: Graph, h: Hypotheses, r: Run, j: JobId)
    requires IsRun(g, h, r) && j in g
    ensures j in First(r).db.jobs && j in Last(r).db.jobs
    ensures Starts(r, j) + StartsLeft(Last(r).db.jobs[j]) <= Max(0, First(r).db.jobs[j].maxRetries) + 1
  {
    match r
    case Admitted(s) => InitialStartsLeft(g, s, j);
    case Then(before, step, s) =>
      AttemptsBounded(g, h, before, j);
      RunReachable(g, h, before);
      StepStartsLeft(g, Last(before), step, s, j);
  }
}
