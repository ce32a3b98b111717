/** The workflow runtime as a state machine.  Schedulers, workers, completion handlers and the
    retry handler interleave freely; each Lua script or Redis command is one atomic step.

    A token is one thread of control holding a job outside the sorted sets: the scheduler that
    popped it, the worker that runs it, its record in the completion stream, the handler that
    took the record.  Any number of tokens may exist; that a job never has two is proved, not
    built in. */
module Protocol {
  import opened Basics
  import opened Dag
  import opened Runtime
  import opened WorkflowScripts
  import opened JobScripts

  /** What a completion record reports; `internal` is the error code INTERNAL_DB_FAILURE. */
  datatype Outcome = Succeeded | FailedRun(internal: bool) | AbortedRun(internal: bool)

  datatype Phase =
    | Popped                                             // by a scheduler, not yet claimed
    | Claimed                                            // by a scheduler or in its worker queue
    | Executing                                          // by a worker
    | InStream(outcome: Outcome)                         // completion record not yet taken
    | Handling(outcome: Outcome, seen: WorkflowStatus)   // record taken, workflow hash read
    | MarkingAborted                                     // failure script done, ABORTED not yet written
    | RetryPopped                                        // by the retry handler

  datatype Token = Token(job: JobId, phase: Phase)

  /** `roster` is the job list of the durable store; `signals` counts the replies that tell a
      handler to clean the workflow up. */
  datatype State = State(db: Store, tokens: map<nat, Token>, roster: seq<JobId>, signals: nat)

  datatype Step =
    | Pop(job: JobId, tok: nat)
    | ClaimJob(tok: nat)
    | PayloadFails(tok: nat)
    | StartJob(tok: nat, now: int)
    | Finish(tok: nat, ok: bool)
    | Take(tok: nat)
    | HandleSuccess(tok: nat, now: int, pick: Option<JobId>)
    | HandleFailure(tok: nat, now: int, retryAt: int, pick: Option<JobId>)
    | MarkAborted(tok: nat)
    | PopRetry(job: JobId, tok: nat, now: int)
    | HandleRetry(tok: nat, pick: Option<JobId>)

  predicate IsHandling(p: Phase) {
    p.Handling? || p.MarkingAborted?
  }

  function RetryCountAfter(job: Job, o: Outcome): int
    requires !o.Succeeded?
  {
    (if o.internal then job.maxRetries else job.retryCount) + 1
  }

  /** The retry gate of the completion handler; `seen` is the workflow status it read. */
  predicate Retries(job: Job, o: Outcome, seen: WorkflowStatus, now: int)
    requires !o.Succeeded?
  {
    && o.FailedRun? && seen == WfRunning
    && RetryCountAfter(job, o) <= job.maxRetries && !JobExpired(job, now)
  }

  ghost predicate Enabled(s: State, step: Step) {
    match step
    case Pop(j, t) => t !in s.tokens && IsPop(s.db.queue, Some(j))
    case PopRetry(j, t, now) => t !in s.tokens && IsDue(s.db.retries, j, now)
    case _ =>
      && step.tok in s.tokens
      && EnabledToken(s, step, s.tokens[step.tok])
  }

  ghost predicate EnabledToken(s: State, step: Step, tk: Token)
    requires !step.Pop? && !step.PopRetry?
  {
    match step
    case ClaimJob(_) => tk.phase.Popped?
    case PayloadFails(_) => tk.phase.Claimed?
    case StartJob(_, _) => tk.phase.Claimed?
    case Finish(_, _) => tk.phase.Executing?
    case Take(_) => tk.phase.InStream?
    case HandleSuccess(_, now, pick) =>
      && tk.phase.Handling? && tk.phase.outcome.Succeeded?
      && (SuccessApplies(s.db, tk.job, now) ==> IsPop(AfterSuccess(s.db, tk.job).waiting, pick))
    case HandleFailure(_, _, _, pick) =>
      && tk.phase.Handling? && !tk.phase.outcome.Succeeded?
      && tk.job in s.db.jobs && IsPop(s.db.waiting, pick)
    case MarkAborted(_) => tk.phase.MarkingAborted?
    case HandleRetry(_, pick) =>
      && tk.phase.RetryPopped?
      && (RetryApplies(s.db, tk.job) ==> IsPop(RetryToWaiting(s.db, tk.job).waiting, pick))
  }

  function Moved(s: State, t: nat, db: Store, phase: Phase): State
    requires t in s.tokens
  {
    s.(db := db, tokens := s.tokens[t := s.tokens[t].(phase := phase)])
  }

  function Dropped(s: State, t: nat, db: Store): State {
    s.(db := db, tokens := s.tokens - {t})
  }

  function Signal(s: State, workflowCompleted: bool): State {
    s.(signals := s.signals + if workflowCompleted then 1 else 0)
  }

  function AfterPop(s: State, j: JobId, t: nat): State {
    s.(db := s.db.(queue := s.db.queue - {j}), tokens := s.tokens[t := Token(j, Popped)])
  }

  function AfterClaim(s: State, t: nat): State
    requires t in s.tokens
  {
    var (db, ok) := Claim(s.db, s.tokens[t].job);
    if ok then Moved(s, t, db, Claimed) else Dropped(s, t, db)
  }

  function AfterPayloadFailure(s: State, t: nat): State
    requires t in s.tokens
  {
    Moved(s, t, s.db, InStream(AbortedRun(true)))
  }

  function AfterStart(s: State, t: nat, now: int): State
    requires t in s.tokens
  {
    var (db, r) := TryStart(s.db, s.tokens[t].job, now);
    Moved(s, t, db, if HasStarted(r) then Executing else InStream(AbortedRun(false)))
  }

  function AfterFinish(s: State, t: nat, ok: bool): State
    requires t in s.tokens
  {
    Moved(s, t, s.db, InStream(if ok then Succeeded else FailedRun(false)))
  }

  function AfterTake(s: State, t: nat): State
    requires t in s.tokens && s.tokens[t].phase.InStream?
  {
    Moved(s, t, s.db, Handling(s.tokens[t].phase.outcome, s.db.wf.status))
  }

  /** A refused success record goes on to the failure path with an internal error. */
  function AfterHandleSuccess(s: State, t: nat, now: int, pick: Option<JobId>): State
    requires t in s.tokens && s.tokens[t].phase.Handling?
    requires SuccessApplies(s.db, s.tokens[t].job, now) && pick.Some?
             ==> pick.value in AfterSuccess(s.db, s.tokens[t].job).waiting
  {
    var (db, reply) := CompleteSuccessful(s.db, s.tokens[t].job, now, pick);
    if reply.Applied? then Signal(Dropped(s, t, db), reply.workflowCompleted)
    else Moved(s, t, db, Handling(FailedRun(true), s.tokens[t].phase.seen))
  }

  function AfterScheduleRetry(s: State, t: nat, retryAt: int, pick: Option<JobId>): State
    requires t in s.tokens && s.tokens[t].phase.Handling? && !s.tokens[t].phase.outcome.Succeeded?
    requires s.tokens[t].job in s.db.jobs
    requires pick.Some? ==> pick.value in s.db.waiting
  {
    var j, o := s.tokens[t].job, s.tokens[t].phase.outcome;
    Dropped(s, t, ScheduleRetry(s.db, j, RetryCountAfter(s.db.jobs[j], o), retryAt, pick).0)
  }

  function AfterTerminalFailure(s: State, t: nat): State
    requires t in s.tokens && s.tokens[t].phase.Handling? && !s.tokens[t].phase.outcome.Succeeded?
    requires s.tokens[t].job in s.db.jobs
  {
    var j, o := s.tokens[t].job, s.tokens[t].phase.outcome;
    var (db, reply) := CompleteFailed(s.db, j, RetryCountAfter(s.db.jobs[j], o), s.roster);
    Signal(if o.AbortedRun? then Moved(s, t, db, MarkingAborted) else Dropped(s, t, db),
           reply.workflowCompleted)
  }

  function AfterMarkAborted(s: State, t: nat): State
    requires t in s.tokens
  {
    var j := s.tokens[t].job;
    var jobs := if j in s.db.jobs then s.db.jobs[j := s.db.jobs[j].(status := Aborted)] else s.db.jobs;
    Dropped(s, t, s.db.(jobs := jobs))
  }

  function AfterPopRetry(s: State, j: JobId, t: nat): State {
    s.(db := s.db.(retries := s.db.retries - {j}), tokens := s.tokens[t := Token(j, RetryPopped)])
  }

  function AfterHandleRetry(s: State, t: nat, pick: Option<JobId>): State
    requires t in s.tokens
    requires RetryApplies(s.db, s.tokens[t].job) && pick.Some?
             ==> pick.value in RetryToWaiting(s.db, s.tokens[t].job).waiting
  {
    Dropped(s, t, PromoteRetry(s.db, s.tokens[t].job, pick).0)
  }

  /** The handler's choice between another attempt and the terminal failure. */
  predicate TakesRetry(s: State, t: nat, now: int)
    requires t in s.tokens && s.tokens[t].phase.Handling? && !s.tokens[t].phase.outcome.Succeeded?
    requires s.tokens[t].job in s.db.jobs
  {
    Retries(s.db.jobs[s.tokens[t].job], s.tokens[t].phase.outcome, s.tokens[t].phase.seen, now)
  }

  ghost function Apply(s: State, step: Step): State
    requires Enabled(s, step)
  {
    match step
    case Pop(j, t) => AfterPop(s, j, t)
    case ClaimJob(t) => AfterClaim(s, t)
    case PayloadFails(t) => AfterPayloadFailure(s, t)
    case StartJob(t, now) => AfterStart(s, t, now)
    case Finish(t, ok) => AfterFinish(s, t, ok)
    case Take(t) => AfterTake(s, t)
    case HandleSuccess(t, now, pick) => AfterHandleSuccess(s, t, now, pick)
    case HandleFailure(t, now, retryAt, pick) =>
      if TakesRetry(s, t, now) then AfterScheduleRetry(s, t, retryAt, pick) else AfterTerminalFailure(s, t)
    case MarkAborted(t) => AfterMarkAborted(s, t)
    case PopRetry(j, t, _) => AfterPopRetry(s, j, t)
    case HandleRetry(t, pick) => AfterHandleRetry(s, t, pick)
  }

  // ---------------------------------------------------------------- hypotheses

  /** The environment assumptions a theorem may use.  That every Redis and SQLite call succeeds
      is part of the model itself. */
  datatype Hypotheses = Hypotheses(
    noTimeout: bool,      // no success record is handled after the workflow's time ran out
    noEarlyAbort: bool,   // no ABORTED record is handled while the workflow is still READY
    oneHandler: bool)     // a record is taken only when no other handler is at work

  ghost predicate Respects(h: Hypotheses, s: State, step: Step)
    requires Enabled(s, step)
  {
    && (h.noTimeout && step.HandleSuccess? ==> !WorkflowExpired(s.db.wf, step.now))
    && (h.noEarlyAbort && step.HandleFailure? && s.tokens[step.tok].phase.outcome.AbortedRun?
        ==> s.db.wf.status != WfReady)
    && (h.oneHandler && step.Take? ==> forall t :: t in s.tokens ==> !IsHandling(s.tokens[t].phase))
  }

  ghost predicate Next(h: Hypotheses, s: State, step: Step, s': State) {
    Enabled(s, step) && Respects(h, s, step) && s' == Apply(s, step)
  }

  // ---------------------------------------------------------------- initial states

  ghost function WithStatus(jobs: map<JobId, Job>, st: JobStatus): set<JobId> {
    set j | j in jobs && jobs[j].status == st
  }

  /** The successor lists encode the reversed graph, each edge once. */
  ghost predicate ListsSuccessors(g: Graph, db: Store, k: JobId) {
    && NoDup(SuccessorsOf(db, k))
    && forall j :: j in SuccessorsOf(db, k) <==> j in g && k in g[j]
  }

  ghost predicate InitialJob(g: Graph, j: JobId, job: Job)
    requires j in g
  {
    && job.remaining == |g[j]| && job.retryCount == 0 && job.startTime.None?
    && -0x8000_0000 <= job.priority < 0x8000_0000
    && (if g[j] == {} then job.status == Queued || job.status == Ready else job.status == Pending)
  }

  /** If `j` got a slot and `k` did not, `k` has no higher priority. */
  predicate RankedFor(jobs: map<JobId, Job>, j: JobId, k: JobId)
    requires j in jobs && k in jobs
  {
    jobs[j].status == Queued && jobs[k].status == Ready ==> jobs[k].priority <= jobs[j].priority
  }

  /** A negative priority never meets another one. */
  ghost predicate Unmixed(jobs: map<JobId, Job>) {
    || (forall j :: j in jobs ==> 0 <= jobs[j].priority)
    || (forall j, k :: j in jobs && k in jobs ==> jobs[j].priority == jobs[k].priority)
  }

  /** The runtime data admission leaves in Redis for the dependency graph `g`. */
  ghost predicate Initial(g: Graph, s: State) {
    var db, wf := s.db, s.db.wf;
    && Closed(g) && Acyclic(g) && g != map[]
    && db.jobs.Keys == g.Keys
    && (forall j {:trigger InitialJob(g, j, db.jobs[j])} :: j in g ==> InitialJob(g, j, db.jobs[j]))
    && (forall k {:trigger ListsSuccessors(g, db, k)} :: k in g ==> ListsSuccessors(g, db, k))
    && Unmixed(db.jobs)
    && db.waiting == (map j | j in WithStatus(db.jobs, Ready) :: Unsigned32(db.jobs[j].priority))
    && db.queue == (map j | j in WithStatus(db.jobs, Queued) :: Unsigned32(db.jobs[j].priority))
    && db.retries == map[] && s.tokens == map[] && s.signals == 0
    && NoDup(s.roster) && Elems(s.roster) == g.Keys
    && wf.status == WfReady && wf.startTime.None?
    && wf.total == |g| && wf.completed == 0 && wf.failed == 0
    && wf.pending == |WithStatus(db.jobs, Pending)|
    && wf.reserved == |WithStatus(db.jobs, Queued)| <= wf.maxConcurrent
    && (WithStatus(db.jobs, Ready) != {} ==> wf.reserved == wf.maxConcurrent)
    && (forall j, k {:trigger RankedFor(db.jobs, j, k)} :: j in db.jobs && k in db.jobs ==> RankedFor(db.jobs, j, k))
  }
}
