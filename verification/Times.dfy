/** The recorded instants: when the workflow started, since when a job runs, until when it is
    parked.  The retry gate and the timeouts go by them. */
module Times {
  import opened Basics
  import opened Dag
  import opened Runtime
  import opened WorkflowScripts
  import opened JobScripts
  import opened Protocol
  import opened Invariants
  import opened Effects
  import opened TokenSteps
  import opened ScriptSteps
  import opened DependencyProofs
  import opened Preservation
  import opened Moves
  import opened Runs
  import opened OutcomeTheorems

  // ---------------------------------------------------------------- running since

  /** The instant of the latest start of `j` in the run. */
  ghost function LatestStart(r: Run, j: JobId): Option<int> {
    match r
    case Admitted(_) => None
    case Then(before, step, _) => if IsStartOf(Last(before), step, j) then Some(step.now) else LatestStart(before, j)
  }

  lemma StartStamps(db: Store, j: JobId, now: int)
    requires j in db.jobs && HasStarted(TryStart(db, j, now).1)
    ensures var db' := TryStart(db, j, now).0; j in db'.jobs && db'.jobs[j].startTime == Some(now)
  {
  }

  lemma RefusedSuccessKeepsStart(s: State, t: nat, now: int, pick: Option<JobId>)
    requires Enabled(s, HandleSuccess(t, now, pick)) && s.tokens[t].job in s.db.jobs
    requires s.db.jobs[s.tokens[t].job].status == Running && !SuccessApplies(s.db, s.tokens[t].job, now)
    ensures AfterHandleSuccess(s, t, now, pick).db.jobs == s.db.jobs
  {
    RefusedSuccess(s.db, s.tokens[t].job, now, pick);
  }

  /** A job that stays RUNNING keeps its stamp. */
  lemma OwnStamp(g: Graph, s: State, step: Step)
    requires Enabled(s, step) && Zsets(s.db) && Custody(s) && s.db.jobs.Keys == g.Keys && Dependencies(g, s.db)
    requires StepJob(s, step) in s.db.jobs && StepJob(s, step) in Apply(s, step).db.jobs
    requires s.db.jobs[StepJob(s, step)].status == Running && Apply(s, step).db.jobs[StepJob(s, step)].status == Running
    ensures Apply(s, step).db.jobs[StepJob(s, step)].startTime == s.db.jobs[StepJob(s, step)].startTime
  {
    StepMove(g, s, step);
    if step.HandleSuccess? {
      HandleSuccessMove(g, s, step.tok, step.now, step.pick);
      RefusedSuccessKeepsStart(s, step.tok, step.now, step.pick);
    }
  }

  lemma OtherStamp(db: Store, db': Store, own: JobId, j: JobId)
    requires BelongsTo(db, db', own) && j in db.jobs && j != own
    ensures j in db'.jobs && db'.jobs[j].startTime == db.jobs[j].startTime
    ensures db'.jobs[j].status == Running ==> db.jobs[j].status == Running
  {
    assert SideEffect(db, db', j);
  }

  lemma OwnStampKept(g: Graph, s: State, step: Step)
    requires Enabled(s, step) && Zsets(s.db) && Custody(s) && s.db.jobs.Keys == g.Keys && Dependencies(g, s.db)
    requires StepJob(s, step) in s.db.jobs && !IsStartOf(s, step, StepJob(s, step))
    ensures var j, s' := StepJob(s, step), Apply(s, step);
      && j in s'.db.jobs
      && (s'.db.jobs[j].status == Running ==> s.db.jobs[j].status == Running && s'.db.jobs[j].startTime == s.db.jobs[j].startTime)
  {
    var j, s' := StepJob(s, step), Apply(s, step);
    StepMove(g, s, step);
    MovesAreOneWay(step, true, s.db.jobs[j].status, s'.db.jobs[j].status);
    if step.StartJob? {
      SoleHolder(s, step.tok);
      StartEffect(s.db, j, step.now);
    } else if s'.db.jobs[j].status == Running {
      OwnStamp(g, s, step);
    }
  }

  lemma StepStamp(g: Graph, s: State, step: Step, j: JobId)
    requires Enabled(s, step) && Inv(g, s) && j in s.db.jobs && !IsStartOf(s, step, j)
    ensures j in Apply(s, step).db.jobs
    ensures Apply(s, step).db.jobs[j].status == Running ==>
      s.db.jobs[j].status == Running && Apply(s, step).db.jobs[j].startTime == s.db.jobs[j].startTime
  {
    StepShaped(g, s, step);
    if j == StepJob(s, step) {
      OwnStampKept(g, s, step);
    } else {
      OtherStamp(s.db, Apply(s, step).db, StepJob(s, step), j);
    }
  }

  /** A RUNNING job is stamped with the instant of its latest start. */
  lemma {:induction false} RunningSince(g: Graph, h: Hypotheses, r: Run, j: JobId)
    requires IsRun(g, h, r) && j in Last(r).db.jobs && Last(r).db.jobs[j].status == Running
    ensures LatestStart(r, j).Some? && Last(r).db.jobs[j].startTime == LatestStart(r, j)
  {
    match r
    case Admitted(s) => InitialHasNotRun(g, s, j);
    case Then(before, step, s') =>
      var s := Last(before);
      RunReachable(g, h, before);
      RunReachable(g, h, r);
      if IsStartOf(s, step, j) {
        StartedHere(s, step, j);
      } else {
        StepStamp(g, s, step, j);
        RunningSince(g, h, before, j);
      }
  }

  lemma StartedHere(s: State, step: Step, j: JobId)
    requires Enabled(s, step) && IsStartOf(s, step, j) && Custody(s)
    ensures j in Apply(s, step).db.jobs && Apply(s, step).db.jobs[j].startTime == Some(step.now)
  {
    SoleHolder(s, step.tok);
    StartStamps(s.db, j, step.now);
  }

  predicate TooLong(start: int, limit: int, now: int) {
    start > 0 && limit > 0 && now - start > limit
  }

  /** The failed attempt may be retried: the handler read the workflow as RUNNING, the error is
      no internal one, a retry is left, and the time since the start is within the limit. */
  predicate MayRetry(job: Job, o: Outcome, seen: WorkflowStatus, start: Option<int>, now: int) {
    && o == FailedRun(false) && seen == WfRunning
    && job.retryCount < job.maxRetries
    && start.Some? && !TooLong(start.value, job.timeoutSec, now)
  }

  lemma GateOf(job: Job, o: Outcome, seen: WorkflowStatus, start: Option<int>, now: int)
    requires !o.Succeeded? && (o == FailedRun(false) ==> start.Some? && job.startTime == start)
    ensures Retries(job, o, seen, now) <==> MayRetry(job, o, seen, start, now)
  {
  }

  /** The record a handler is about to handle as a failure. */
  ghost predicate HandlesFailure(s: State, step: Step) {
    && step.HandleFailure? && step.tok in s.tokens && s.tokens[step.tok].phase.Handling?
    && s.tokens[step.tok].job in s.db.jobs
  }

  lemma GateStep(s: State, t: nat, now: int, retryAt: int, pick: Option<JobId>, start: Option<int>)
    requires Enabled(s, HandleFailure(t, now, retryAt, pick)) && Zsets(s.db) && Custody(s)
    requires s.tokens[t].phase.outcome == FailedRun(false) ==> start.Some? && s.db.jobs[s.tokens[t].job].startTime == start
    ensures var tk, s' := s.tokens[t], Apply(s, HandleFailure(t, now, retryAt, pick));
      && tk.job in s'.db.jobs
      && (s'.db.jobs[tk.job].status == RetryDelay <==> MayRetry(s.db.jobs[tk.job], tk.phase.outcome, tk.phase.seen, start, now))
  {
    HandleFailureMove(s, t, now, retryAt, pick);
    GateOf(s.db.jobs[s.tokens[t].job], s.tokens[t].phase.outcome, s.tokens[t].phase.seen, start, now);
  }

  lemma FailedAttemptSince(g: Graph, h: Hypotheses, r: Run, t: nat)
    requires IsRun(g, h, r) && t in Last(r).tokens && Last(r).tokens[t].phase.Handling?
    ensures Zsets(Last(r).db) && Custody(Last(r))
    ensures var j := Last(r).tokens[t].job;
      && j in Last(r).db.jobs
      && (Last(r).tokens[t].phase.outcome == FailedRun(false) ==>
            LatestStart(r, j).Some? && Last(r).db.jobs[j].startTime == LatestStart(r, j))
  {
    RunReachable(g, h, r);
    SoleHolder(Last(r), t);
    if Last(r).tokens[t].phase.outcome == FailedRun(false) { RunningSince(g, h, r, Last(r).tokens[t].job); }
  }

  /** The retry gate, in terms of the run: a failed attempt is parked if and only if it may be
      retried, counted from the job's latest start. */
  lemma RetryGate(g: Graph, h: Hypotheses, r: Run)
    requires IsRun(g, h, r) && r.Then? && r.step.HandleFailure?
    ensures HandlesFailure(Last(r.before), r.step)
    ensures var s, tk := Last(r.before), Last(r.before).tokens[r.step.tok];
      && tk.job in Last(r).db.jobs
      && (Last(r).db.jobs[tk.job].status == RetryDelay <==>
          MayRetry(s.db.jobs[tk.job], tk.phase.outcome, tk.phase.seen, LatestStart(r.before, tk.job), r.step.now))
  {
    var s, t := Last(r.before), r.step.tok;
    FailedAttemptSince(g, h, r.before, t);
    GateStep(s, t, r.step.now, r.step.retryAt, r.step.pick, LatestStart(r.before, s.tokens[t].job));
  }

  // ---------------------------------------------------------------- parked until

  /** The due time given to the latest parking of `j`. */
  ghost function DueTime(r: Run, j: JobId): Option<int> {
    match r
    case Admitted(_) => None
    case Then(before, step, s) =>
      if Parks(Last(before), step, s, j) then Some(step.retryAt) else DueTime(before, j)
  }

  ghost predicate Parks(s: State, step: Step, s': State, j: JobId) {
    && step.HandleFailure? && step.tok in s.tokens && s.tokens[step.tok].job == j
    && j in s'.db.jobs && s'.db.jobs[j].status == RetryDelay
  }

  lemma FailureDue(s: State, t: nat, now: int, retryAt: int, pick: Option<JobId>, k: JobId)
    requires Enabled(s, HandleFailure(t, now, retryAt, pick)) && Zsets(s.db) && Custody(s)
    ensures var s', j := Apply(s, HandleFailure(t, now, retryAt, pick)), s.tokens[t].job;
      k in s'.db.retries ==>
        if k == j && TakesRetry(s, t, now) then s'.db.retries[k] == retryAt
        else k in s.db.retries && s'.db.retries[k] == s.db.retries[k]
  {
    SoleHolder(s, t);
    var j := s.tokens[t].job;
    if !TakesRetry(s, t, now) {
      FailureZsetsPointwise(s.db, j, RetryCountAfter(s.db.jobs[j], s.tokens[t].phase.outcome), s.roster);
    }
  }

  lemma StepDue(s: State, step: Step, k: JobId)
    requires Enabled(s, step) && !step.HandleFailure? && k in Apply(s, step).db.retries
    ensures k in s.db.retries && Apply(s, step).db.retries[k] == s.db.retries[k]
  {
    if step.HandleSuccess? {
      SuccessDue(s, step.tok, step.now, step.pick);
    } else if step.HandleRetry? {
      RetryDue(s, step.tok, step.pick);
    } else if step.StartJob? {
      StartDue(s.db, s.tokens[step.tok].job, step.now);
    }
  }

  lemma SuccessDue(s: State, t: nat, now: int, pick: Option<JobId>)
    requires Enabled(s, HandleSuccess(t, now, pick))
    ensures AfterHandleSuccess(s, t, now, pick).db.retries == s.db.retries
  {
  }

  lemma RetryDue(s: State, t: nat, pick: Option<JobId>)
    requires Enabled(s, HandleRetry(t, pick))
    ensures AfterHandleRetry(s, t, pick).db.retries == s.db.retries
  {
  }

  lemma StartDue(db: Store, j: JobId, now: int)
    ensures TryStart(db, j, now).0.retries == db.retries
  {
  }

  lemma {:induction false} ParkedUntil(g: Graph, h: Hypotheses, r: Run, j: JobId)
    requires IsRun(g, h, r) && j in Last(r).db.retries
    ensures DueTime(r, j) == Some(Last(r).db.retries[j])
  {
    if r.Then? {
      var s, step := Last(r.before), r.step;
      RunReachable(g, h, r.before);
      RunReachable(g, h, r);
      if step.HandleFailure? {
        FailureDue(s, step.tok, step.now, step.retryAt, step.pick, j);
        HandleFailureMove(s, step.tok, step.now, step.retryAt, step.pick);
      } else {
        StepDue(s, step, j);
      }
      if !Parks(s, step, r.after, j) { ParkedUntil(g, h, r.before, j); }
    }
  }

  /** No retry comes early: a job leaves the delay set only at or after the instant its handler
      chose, and nobody parked is due before it. */
  lemma RetriesWait(g: Graph, h: Hypotheses, r: Run)
    requires IsRun(g, h, r) && r.Then? && r.step.PopRetry?
    ensures DueTime(r.before, r.step.job).Some? && DueTime(r.before, r.step.job).value <= r.step.now
    ensures forall k :: k in Last(r.before).db.retries ==>
      DueTime(r.before, k).Some? && DueTime(r.before, r.step.job).value <= DueTime(r.before, k).value
  {
    forall k | k in Last(r.before).db.retries ensures DueTime(r.before, k) == Some(Last(r.before).db.retries[k]) {
      ParkedUntil(g, h, r.before, k);
    }
  }

  // ---------------------------------------------------------------- the workflow's start

  /** The instant of the first start of any job. */
  ghost function FirstStart(r: Run): Option<int> {
    match r
    case Admitted(_) => None
    case Then(before, step, _) =>
      if FirstStart(before) == None && IsAnyStart(Last(before), step) then Some(step.now) else FirstStart(before)
  }

  ghost predicate IsAnyStart(s: State, step: Step) {
    step.StartJob? && step.tok in s.tokens && IsStartOf(s, step, s.tokens[step.tok].job)
  }

  lemma StartTimes(db: Store, j: JobId, now: int)
    requires j in db.jobs && db.jobs[j].status == PendingExecution
    requires db.wf.status == WfReady ==> db.wf.startTime.None?
    ensures var (db', result) := TryStart(db, j, now);
      db'.wf.startTime == if result == FirstToStart then Some(now) else db.wf.startTime
    ensures TryStart(db, j, now).1 == FirstToStart <==> db.wf.status == WfReady
  {
  }

  lemma SuccessStart(s: State, t: nat, now: int, pick: Option<JobId>)
    requires Enabled(s, HandleSuccess(t, now, pick))
    ensures AfterHandleSuccess(s, t, now, pick).db.wf.startTime == s.db.wf.startTime
  {
  }

  lemma OtherStart(s: State, step: Step)
    requires Enabled(s, step) && !step.StartJob?
    ensures Apply(s, step).db.wf.startTime == s.db.wf.startTime
  {
    if step.HandleSuccess? { SuccessStart(s, step.tok, step.now, step.pick); }
  }

  ghost predicate HasBegun(wf: Workflow) {
    wf.status == WfRunning || wf.status == WfCompleted
  }

  lemma SuccessBegun(s: State, t: nat, now: int, pick: Option<JobId>)
    requires Enabled(s, HandleSuccess(t, now, pick)) && HasBegun(AfterHandleSuccess(s, t, now, pick).db.wf)
    ensures HasBegun(s.db.wf)
  {
  }

  /** Only a start makes the workflow RUNNING, and only a RUNNING one is COMPLETED. */
  lemma BegunBefore(s: State, step: Step)
    requires Enabled(s, step) && !step.StartJob? && HasBegun(Apply(s, step).db.wf)
    ensures HasBegun(s.db.wf)
  {
    if step.HandleSuccess? { SuccessBegun(s, step.tok, step.now, step.pick); }
  }

  lemma StartBegins(s: State, t: nat, now: int)
    requires Custody(s) && Lifecycle(s.db) && t in s.tokens && s.tokens[t].phase.Claimed?
    requires HasBegun(s.db.wf) ==> s.db.wf.startTime.Some?
    ensures var s', first := AfterStart(s, t, now), s.db.wf.startTime;
      && s'.db.wf.startTime == (if first == None && IsAnyStart(s, StartJob(t, now)) then Some(now) else first)
      && (HasBegun(s'.db.wf) ==> s'.db.wf.startTime.Some?)
  {
    SoleHolder(s, t);
    StartTimes(s.db, s.tokens[t].job, now);
  }

  /** In every run the workflow is stamped with the instant of the first start of any job, and
      stays so: its time limit runs from there. */
  lemma {:induction false} WorkflowSince(g: Graph, h: Hypotheses, r: Run)
    requires IsRun(g, h, r)
    ensures Last(r).db.wf.startTime == FirstStart(r)
    ensures HasBegun(Last(r).db.wf) ==> FirstStart(r).Some?
  {
    if r.Then? {
      var s, step := Last(r.before), r.step;
      WorkflowSince(g, h, r.before);
      RunReachable(g, h, r.before);
      if step.StartJob? {
        StartBegins(s, step.tok, step.now);
      } else {
        OtherStart(s, step);
        if HasBegun(r.after.db.wf) { BegunBefore(s, step); }
      }
    }
  }
}
