/** What every reachable state of the protocol satisfies.  `Inv` needs no hypothesis beyond
    the model; `SlotsExact` needs that nothing is aborted while the workflow is READY;
    `Propagated` needs that no timeout strikes and that one completion handler runs. */
module Invariants {
  import opened Basics
  import opened Dag
  import opened Runtime
  import opened Protocol

  /** The job set, the graph and the totals never change. */
  ghost predicate Shape(g: Graph, s: State) {
    && Closed(g) && g != map[]
    && s.db.jobs.Keys == g.Keys
    && s.db.wf.total == |g|
    && NoDup(s.roster) && Elems(s.roster) == g.Keys
  }

  /** Sorted-set membership is a job status. */
  ghost predicate Zsets(db: Store) {
    && (forall j :: j in db.waiting <==> j in db.jobs && db.jobs[j].status == Ready)
    && (forall j :: j in db.queue ==> j in db.jobs && db.jobs[j].status == Queued)
    && (forall j :: j in db.retries ==> j in db.jobs && db.jobs[j].status == RetryDelay)
  }

  /** The statuses a job may have while a token in phase `p` holds it. */
  predicate Fits(p: Phase, st: JobStatus) {
    match p
    case Popped => st == Queued || st == Aborted
    case Claimed => st == PendingExecution
    case Executing => st == Running
    case InStream(o) => FitsOutcome(o, st)
    case Handling(o, _) => FitsOutcome(o, st)
    case MarkingAborted => st == Failed
    case RetryPopped => st == RetryDelay || st == Aborted
  }

  predicate FitsOutcome(o: Outcome, st: JobStatus) {
    if o.AbortedRun? then st == PendingExecution || st == Aborted else st == Running
  }

  predicate ReportsAbort(p: Phase) {
    (p.InStream? || p.Handling?) && p.outcome.AbortedRun?
  }

  /** The holder finds the job as it expects, in no queue; a job aborted at its start belongs
      to a FAILED workflow. */
  ghost predicate TokenFits(s: State, t: nat)
    requires t in s.tokens
  {
    var tk := s.tokens[t];
    && tk.job in s.db.jobs && Fits(tk.phase, s.db.jobs[tk.job].status)
    && tk.job !in s.db.queue && tk.job !in s.db.retries
    && (ReportsAbort(tk.phase) && s.db.jobs[tk.job].status == Aborted ==> s.db.wf.status == WfFailed)
  }

  /** No job is held twice, and whoever holds a job finds it in the status it expects. */
  ghost predicate Custody(s: State) {
    && (forall t {:trigger TokenFits(s, t)} :: t in s.tokens ==> TokenFits(s, t))
    && (forall t, u :: t in s.tokens && u in s.tokens && s.tokens[t].job == s.tokens[u].job ==> t == u)
  }

  ghost predicate Held(tokens: map<nat, Token>, j: JobId) {
    exists t :: t in tokens && tokens[t].job == j
  }

  /** Every job on its way is somewhere: in a sorted set or with a token. */
  ghost predicate Placed(s: State, j: JobId)
    requires j in s.db.jobs
  {
    var st := s.db.jobs[j].status;
    && (st == PendingExecution || st == Running ==> Held(s.tokens, j))
    && (st == Queued ==> j in s.db.queue || Held(s.tokens, j))
    && (st == RetryDelay ==> j in s.db.retries || Held(s.tokens, j))
    && st != Canceled
  }

  ghost predicate Covered(s: State) {
    forall j {:trigger Placed(s, j)} :: j in s.db.jobs ==> Placed(s, j)
  }

  ghost function Unmet(g: Graph, jobs: map<JobId, Job>, j: JobId): set<JobId>
    requires j in g
  {
    set d | d in g[j] && !(d in jobs && jobs[d].status == Completed)
  }

  /** The job's dependencies were all completed at some time: it is neither PENDING nor a casualty. */
  predicate IsCleared(st: JobStatus) {
    st != Pending && st != Aborted && st != Failed
  }

  /** A PENDING job counts its unfinished dependencies; a cleared job has none. */
  ghost predicate DepsCounted(g: Graph, jobs: map<JobId, Job>, j: JobId)
    requires j in g && j in jobs
  {
    var st := jobs[j].status;
    && (st == Pending ==> jobs[j].remaining == |Unmet(g, jobs, j)| > 0)
    && (IsCleared(st) ==> Unmet(g, jobs, j) == {})
  }

  ghost predicate Dependencies(g: Graph, db: Store)
    requires db.jobs.Keys == g.Keys
  {
    && (forall j {:trigger DepsCounted(g, db.jobs, j)} :: j in g ==> DepsCounted(g, db.jobs, j))
    && (forall k {:trigger ListsSuccessors(g, db, k)} :: k in g && db.jobs[k].status != Completed ==> ListsSuccessors(g, db, k))
  }

  ghost function Active(jobs: map<JobId, Job>): set<JobId> {
    set j | j in jobs && IsActive(jobs[j].status)
  }

  ghost predicate SlotsBounded(db: Store) {
    |Active(db.jobs)| <= db.wf.reserved <= db.wf.maxConcurrent
  }

  /** The workflow moves READY, RUNNING, then COMPLETED or FAILED; nothing ran while READY. */
  ghost predicate Lifecycle(db: Store) {
    && (db.wf.status == WfReady || db.wf.status == WfRunning || db.wf.status == WfCompleted || db.wf.status == WfFailed)
    && (db.wf.status == WfReady ==> db.wf.startTime.None?)
    && (db.wf.status == WfReady ==>
          forall j :: j in db.jobs ==> db.jobs[j].status != Running && db.jobs[j].status != RetryDelay)
  }

  ghost function Terminal(jobs: map<JobId, Job>): set<JobId> {
    set j | j in jobs && IsTerminal(jobs[j].status)
  }

  /** The jobs whose ABORTED completion record is on its way. */
  ghost function AbortInFlight(tokens: map<nat, Token>): set<JobId> {
    set t | t in tokens && ReportsAbort(tokens[t].phase) :: tokens[t].job
  }

  /** The jobs that will not be counted again. */
  ghost function Settled(s: State): set<JobId> {
    Terminal(s.db.jobs) - AbortInFlight(s.tokens)
  }

  ghost predicate IsLive(wf: Workflow) {
    wf.status == WfReady || wf.status == WfRunning
  }

  ghost predicate Counted(s: State) {
    && s.db.wf.completed <= |Settled(s)|
    && (IsLive(s.db.wf) ==> s.db.wf.completed == |Settled(s)|)
    && (s.db.wf.status == WfCompleted ==> s.db.wf.completed == s.db.wf.total)
    && s.signals == (if s.db.wf.completed == s.db.wf.total then 1 else 0)
  }

  ghost predicate Inv(g: Graph, s: State) {
    && Shape(g, s) && Zsets(s.db) && Custody(s) && Covered(s)
    && Dependencies(g, s.db) && SlotsBounded(s.db) && Lifecycle(s.db) && Counted(s)
  }

  // ---------------------------------------------------------------- under hypotheses

  /** Without early aborts: slots are exact, a live workflow has no casualties, a waiting job
      implies a reserved slot, the total is not reached, and COMPLETED means every job completed. */
  ghost predicate SlotsExact(db: Store) {
    && (IsLive(db.wf) ==>
          && |Active(db.jobs)| == db.wf.reserved
          && db.wf.completed < db.wf.total
          && (forall j :: j in db.jobs ==> db.jobs[j].status != Failed && db.jobs[j].status != Aborted)
          && (db.waiting != map[] && 1 <= db.wf.maxConcurrent ==> 1 <= db.wf.reserved))
    && (db.wf.status == WfCompleted ==> forall j :: j in db.jobs ==> db.jobs[j].status == Completed)
  }

  ghost predicate NothingLeftToRun(db: Store) {
    db.wf.status == WfFailed ==> forall j :: j in db.jobs ==> !IsWaitingToRun(db.jobs[j].status)
  }

  ghost predicate OneHandler(s: State) {
    forall t, u :: t in s.tokens && u in s.tokens && IsHandling(s.tokens[t].phase) && IsHandling(s.tokens[u].phase) ==> t == u
  }

  /** What a handler read as RUNNING is still RUNNING. */
  ghost predicate SeenIsCurrent(s: State) {
    forall t :: t in s.tokens && s.tokens[t].phase.Handling? && s.tokens[t].phase.seen == WfRunning ==>
      s.db.wf.status == WfRunning
  }

  /** Without timeouts and with one handler: a FAILED workflow has no job left to run and every
      settled job is counted. */
  ghost predicate Propagated(s: State) {
    && NothingLeftToRun(s.db) && s.db.wf.completed == |Settled(s)|
    && OneHandler(s) && SeenIsCurrent(s)
  }
}
