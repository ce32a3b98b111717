/** Which waiting job gets a free slot. */
module Priorities {
  import opened Basics
  import opened Dag
  import opened Runtime
  import opened WorkflowScripts
  import opened JobScripts
  import opened Protocol
  import opened Invariants
  import opened Effects
  import opened TokenSteps
  import opened ScriptSteps
  import opened DependencyProofs
  import opened Preservation
  import opened Runs

  /** Whatever is new in the execution queue outranks everything still waiting. */
  ghost predicate NewcomersOutrank(before: Zset, queue: Zset, waiting: Zset) {
    forall j, k :: j in queue && j !in before && k in waiting ==> waiting[k] <= queue[j]
  }

  lemma PromotingOutranks(db: Store, slotFree: bool, pick: Option<JobId>)
    requires IsPop(db.waiting, pick)
    ensures var db' := Promoting(db, slotFree, pick).0; NewcomersOutrank(db.queue, db'.queue, db'.waiting)
  {
  }

  lemma SuccessOutranks(db: Store, j: JobId, now: int, pick: Option<JobId>)
    requires SuccessApplies(db, j, now) ==> IsPop(AfterSuccess(db, j).waiting, pick)
    ensures var db' := CompleteSuccessful(db, j, now, pick).0; NewcomersOutrank(db.queue, db'.queue, db'.waiting)
  {
    if SuccessApplies(db, j, now) {
      PromotingOutranks(AfterSuccess(db, j), SuccessPromotes(db), pick);
    }
  }

  lemma ScheduleRetryOutranks(db: Store, j: JobId, retryCount: int, retryAt: int, pick: Option<JobId>)
    requires j in db.jobs && IsPop(db.waiting, pick)
    ensures var db' := ScheduleRetry(db, j, retryCount, retryAt, pick).0; NewcomersOutrank(db.queue, db'.queue, db'.waiting)
  {
    PromotingOutranks(ParkRetry(db, j, retryCount, retryAt), RetryPromotes(db), pick);
  }

  lemma PromoteRetryOutranks(db: Store, j: JobId, pick: Option<JobId>)
    requires RetryApplies(db, j) ==> IsPop(RetryToWaiting(db, j).waiting, pick)
    ensures var db' := PromoteRetry(db, j, pick).0; NewcomersOutrank(db.queue, db'.queue, db'.waiting)
  {
    if RetryApplies(db, j) {
      PromotingOutranks(RetryToWaiting(db, j), db.wf.reserved < db.wf.maxConcurrent, pick);
    }
  }

  lemma CancelQueuesNothing(db: Store, j: JobId, retryCount: int, ids: seq<JobId>)
    requires j in db.jobs
    ensures CompleteFailed(db, j, retryCount, ids).0.queue.Keys <= db.queue.Keys
  {
    FailureZsetsPointwise(db, j, retryCount, ids);
  }

  lemma FailureOutranks(s: State, t: nat, now: int, retryAt: int, pick: Option<JobId>)
    requires Enabled(s, HandleFailure(t, now, retryAt, pick))
    ensures var s' := Apply(s, HandleFailure(t, now, retryAt, pick));
      NewcomersOutrank(s.db.queue, s'.db.queue, s'.db.waiting)
  {
    var job, o := s.db.jobs[s.tokens[t].job], s.tokens[t].phase.outcome;
    if TakesRetry(s, t, now) {
      ScheduleRetryOutranks(s.db, s.tokens[t].job, RetryCountAfter(job, o), retryAt, pick);
    } else {
      CancelQueuesNothing(s.db, s.tokens[t].job, RetryCountAfter(job, o), s.roster);
    }
  }

  lemma StepOutranks(s: State, step: Step)
    requires Enabled(s, step)
    ensures NewcomersOutrank(s.db.queue, Apply(s, step).db.queue, Apply(s, step).db.waiting)
  {
    match step
    case HandleSuccess(t, now, pick) => SuccessOutranks(s.db, s.tokens[t].job, now, pick);
    case HandleFailure(t, now, retryAt, pick) => FailureOutranks(s, t, now, retryAt, pick);
    case HandleRetry(t, pick) => PromoteRetryOutranks(s.db, s.tokens[t].job, pick);
    case _ =>
  }

  // ---------------------------------------------------------------- scores and priorities

  /** Admission writes scores as unsigned ints, the scripts write priorities as they are; so the
      score of a negative priority may be too high by two to the power of 32, if it `wraps`. */
  predicate IsScore(priority: int, score: int, wraps: bool) {
    score == priority || (wraps && priority < 0 <= score && score == Unsigned32(priority))
  }

  ghost predicate HasScoresOf(z: Zset, jobs: map<JobId, Job>, wraps: bool) {
    forall j :: j in z ==> j in jobs && IsScore(jobs[j].priority, z[j], wraps)
  }

  ghost predicate Scored(db: Store, wraps: bool) {
    HasScoresOf(db.waiting, db.jobs, wraps) && HasScoresOf(db.queue, db.jobs, wraps)
  }

  /** No priority changes. */
  ghost predicate SamePriorities(jobs: map<JobId, Job>, jobs': map<JobId, Job>) {
    jobs'.Keys == jobs.Keys && forall j :: j in jobs ==> jobs'[j].priority == jobs[j].priority
  }

  lemma PromotingScored(db: Store, slotFree: bool, pick: Option<JobId>, wraps: bool)
    requires Scored(db, wraps) && (pick.Some? ==> pick.value in db.waiting)
    ensures var db' := Promoting(db, slotFree, pick).0; Scored(db', wraps) && SamePriorities(db.jobs, db'.jobs)
  {
  }

  lemma ReleaseScored(db: Store, j: JobId, wraps: bool)
    requires Scored(db, wraps) && j in db.jobs && NoDup(SuccessorsOf(db, j))
    ensures Scored(AfterSuccess(db, j), wraps) && SamePriorities(db.jobs, AfterSuccess(db, j).jobs)
  {
    SuccessPointwise(db, j);
  }

  lemma SuccessScored(db: Store, j: JobId, now: int, pick: Option<JobId>, wraps: bool)
    requires Scored(db, wraps) && j in db.jobs && db.jobs[j].status == Running && NoDup(SuccessorsOf(db, j))
    requires SuccessApplies(db, j, now) ==> IsPop(AfterSuccess(db, j).waiting, pick)
    ensures var db' := CompleteSuccessful(db, j, now, pick).0; Scored(db', wraps) && SamePriorities(db.jobs, db'.jobs)
  {
    if SuccessApplies(db, j, now) {
      ReleaseScored(db, j, wraps);
      PromotingScored(AfterSuccess(db, j), SuccessPromotes(db), pick, wraps);
    } else {
      RefusedSuccess(db, j, now, pick);
    }
  }

  lemma FailureScored(db: Store, j: JobId, retryCount: int, ids: seq<JobId>, wraps: bool)
    requires Scored(db, wraps) && j in db.jobs
    ensures var db' := CompleteFailed(db, j, retryCount, ids).0; Scored(db', wraps) && SamePriorities(db.jobs, db'.jobs)
  {
    FailurePointwise(db, j, retryCount, ids);
    FailureZsetsPointwise(db, j, retryCount, ids);
  }

  lemma ScheduleRetryScored(db: Store, j: JobId, retryCount: int, retryAt: int, pick: Option<JobId>, wraps: bool)
    requires Scored(db, wraps) && j in db.jobs && IsPop(db.waiting, pick)
    ensures var db' := ScheduleRetry(db, j, retryCount, retryAt, pick).0; Scored(db', wraps) && SamePriorities(db.jobs, db'.jobs)
  {
    PromotingScored(ParkRetry(db, j, retryCount, retryAt), RetryPromotes(db), pick, wraps);
  }

  lemma RetryToWaitingScored(db: Store, j: JobId, wraps: bool)
    requires Scored(db, wraps) && j in db.jobs
    ensures Scored(RetryToWaiting(db, j), wraps) && SamePriorities(db.jobs, RetryToWaiting(db, j).jobs)
  {
  }

  lemma RetryToQueueScored(db: Store, j: JobId, wraps: bool)
    requires Scored(db, wraps) && j in db.jobs
    ensures Scored(RetryToQueue(db, j), wraps) && SamePriorities(db.jobs, RetryToQueue(db, j).jobs)
  {
  }

  lemma PromoteRetryScored(db: Store, j: JobId, pick: Option<JobId>, wraps: bool)
    requires Scored(db, wraps)
    requires RetryApplies(db, j) ==> IsPop(RetryToWaiting(db, j).waiting, pick)
    ensures var db' := PromoteRetry(db, j, pick).0; Scored(db', wraps) && SamePriorities(db.jobs, db'.jobs)
  {
    if RetryApplies(db, j) {
      RetryToQueueScored(db, j, wraps);
      RetryToWaitingScored(db, j, wraps);
      PromotingScored(RetryToWaiting(db, j), db.wf.reserved < db.wf.maxConcurrent, pick, wraps);
    }
  }

  lemma HandleFailureScored(s: State, t: nat, now: int, retryAt: int, pick: Option<JobId>, wraps: bool)
    requires Enabled(s, HandleFailure(t, now, retryAt, pick)) && Scored(s.db, wraps)
    ensures var s' := Apply(s, HandleFailure(t, now, retryAt, pick)); Scored(s'.db, wraps) && SamePriorities(s.db.jobs, s'.db.jobs)
  {
    var j := s.tokens[t].job;
    var count := RetryCountAfter(s.db.jobs[j], s.tokens[t].phase.outcome);
    if TakesRetry(s, t, now) {
      ScheduleRetryScored(s.db, j, count, retryAt, pick, wraps);
    } else {
      FailureScored(s.db, j, count, s.roster, wraps);
    }
  }

  lemma StartOwnPriority(db: Store, j: JobId, now: int)
    requires j in db.jobs && db.jobs[j].status == PendingExecution
    ensures j in TryStart(db, j, now).0.jobs && TryStart(db, j, now).0.jobs[j].priority == db.jobs[j].priority
  {
  }

  lemma RefusedStart(db: Store, j: JobId, now: int)
    requires !(j in db.jobs && db.jobs[j].status == PendingExecution)
    ensures var db' := TryStart(db, j, now).0; db'.jobs == db.jobs && db'.waiting == db.waiting && db'.queue == db.queue
  {
  }

  lemma StartPriorities(db: Store, j: JobId, now: int)
    ensures var db' := TryStart(db, j, now).0;
      && SamePriorities(db.jobs, db'.jobs) && db'.waiting == db.waiting && db'.queue == db.queue
  {
    if j in db.jobs && db.jobs[j].status == PendingExecution {
      StartEffect(db, j, now);
      StartOwnPriority(db, j, now);
    } else {
      RefusedStart(db, j, now);
    }
  }

  lemma StartScored(db: Store, j: JobId, now: int, wraps: bool)
    requires Scored(db, wraps)
    ensures var db' := TryStart(db, j, now).0; Scored(db', wraps) && SamePriorities(db.jobs, db'.jobs)
  {
    StartPriorities(db, j, now);
  }

  lemma TokenStepScored(s: State, step: Step, wraps: bool)
    requires Enabled(s, step) && Scored(s.db, wraps)
    requires !step.HandleSuccess? && !step.HandleFailure? && !step.HandleRetry?
    ensures Scored(Apply(s, step).db, wraps) && SamePriorities(s.db.jobs, Apply(s, step).db.jobs)
  {
    if step.StartJob? { StartScored(s.db, s.tokens[step.tok].job, step.now, wraps); }
  }

  /** No step changes a priority or writes another score than a priority. */
  lemma StepScored(g: Graph, s: State, step: Step, wraps: bool)
    requires Enabled(s, step) && Custody(s) && s.db.jobs.Keys == g.Keys && Dependencies(g, s.db) && Scored(s.db, wraps)
    ensures Scored(Apply(s, step).db, wraps) && SamePriorities(s.db.jobs, Apply(s, step).db.jobs)
  {
    match step
    case HandleSuccess(t, now, pick) =>
      SoleHolder(s, t);
      HolderLists(g, s, t);
      SuccessScored(s.db, s.tokens[t].job, now, pick, wraps);
    case HandleFailure(t, now, retryAt, pick) => HandleFailureScored(s, t, now, retryAt, pick, wraps);
    case HandleRetry(t, pick) => PromoteRetryScored(s.db, s.tokens[t].job, pick, wraps);
    case _ => TokenStepScored(s, step, wraps);
  }

  ghost predicate NoNegativeRoot(g: Graph, jobs: map<JobId, Job>) {
    forall j :: j in g && g[j] == {} && j in jobs ==> 0 <= jobs[j].priority
  }

  lemma InitialScored(g: Graph, s: State, wraps: bool)
    requires Initial(g, s) && (wraps || NoNegativeRoot(g, s.db.jobs))
    ensures Scored(s.db, wraps)
  {
    forall j | j in s.db.jobs && s.db.jobs[j].status != Pending
      ensures IsScore(s.db.jobs[j].priority, Unsigned32(s.db.jobs[j].priority), wraps)
    {
      assert InitialJob(g, j, s.db.jobs[j]);
    }
  }

  lemma {:induction false} RunScored(g: Graph, h: Hypotheses, r: Run, wraps: bool)
    requires IsRun(g, h, r) && (wraps || NoNegativeRoot(g, First(r).db.jobs))
    ensures Scored(Last(r).db, wraps) && SamePriorities(First(r).db.jobs, Last(r).db.jobs)
  {
    match r
    case Admitted(s) => InitialScored(g, s, wraps);
    case Then(before, step, _) =>
      RunScored(g, h, before, wraps);
      RunReachable(g, h, before);
      StepScored(g, Last(before), step, wraps);
  }

  // ---------------------------------------------------------------- theorems

  ghost predicate InRange(jobs: map<JobId, Job>) {
    forall j :: j in jobs ==> -0x8000_0000 <= jobs[j].priority < 0x8000_0000
  }

  /** In every state of every run priorities are ints, and scores are priorities or wrapped ones. */
  lemma RunInRange(g: Graph, h: Hypotheses, r: Run)
    requires IsRun(g, h, r)
    ensures InRange(Last(r).db.jobs) && Scored(Last(r).db, true)
  {
    RunScored(g, h, r, true);
    FirstIsInitial(g, h, r);
    forall j | j in First(r).db.jobs ensures -0x8000_0000 <= First(r).db.jobs[j].priority < 0x8000_0000 {
      assert InitialJob(g, j, First(r).db.jobs[j]);
    }
  }

  lemma {:induction false} FirstIsInitial(g: Graph, h: Hypotheses, r: Run)
    requires IsRun(g, h, r)
    ensures Initial(g, First(r))
  {
    if r.Then? { FirstIsInitial(g, h, r.before); }
  }

  /** No score wraps, or a job of the highest priority has a score that does. */
  ghost predicate TopIsTrue(z: Zset, jobs: map<JobId, Job>)
    requires HasScoresOf(z, jobs, true)
  {
    || (forall k :: k in z ==> z[k] == jobs[k].priority)
    || (exists k :: k in z && z[k] != jobs[k].priority && forall q :: q in z ==> jobs[q].priority <= jobs[k].priority)
  }

  /** Whatever is popped from the waiting jobs has the highest priority among them if and only if
      no score wraps or a job of the highest priority has a score that does. */
  lemma PopByPriorityIff(z: Zset, jobs: map<JobId, Job>, p: JobId)
    requires HasScoresOf(z, jobs, true) && InRange(jobs) && IsPop(z, Some(p))
    ensures (forall k :: k in z ==> jobs[k].priority <= jobs[p].priority) <==> TopIsTrue(z, jobs)
  {
    forall k | k in z ensures z[k] != jobs[k].priority <==> 0x8000_0000 <= z[k] {
      assert IsScore(jobs[k].priority, z[k], true);
    }
    if exists k :: k in z && z[k] != jobs[k].priority {
      var k :| k in z && z[k] != jobs[k].priority;
      assert z[k] <= z[p];
    }
  }

  /** In every state of every run a negative priority never meets another one. */
  lemma RunUnmixed(g: Graph, h: Hypotheses, r: Run)
    requires IsRun(g, h, r)
    ensures Unmixed(Last(r).db.jobs)
  {
    RunScored(g, h, r, true);
    FirstIsInitial(g, h, r);
    SameUnmixed(First(r).db.jobs, Last(r).db.jobs);
  }

  lemma SameUnmixed(jobs: map<JobId, Job>, jobs': map<JobId, Job>)
    requires Unmixed(jobs) && SamePriorities(jobs, jobs')
    ensures Unmixed(jobs')
  {
    forall j | j in jobs' ensures j in jobs && jobs'[j].priority == jobs[j].priority {
    }
  }

  lemma UnmixedTop(z: Zset, jobs: map<JobId, Job>)
    requires HasScoresOf(z, jobs, true) && Unmixed(jobs)
    ensures TopIsTrue(z, jobs)
  {
    if k :| k in z && z[k] != jobs[k].priority {
      assert IsScore(jobs[k].priority, z[k], true);
      assert forall q :: q in z ==> jobs[q].priority <= jobs[k].priority;
    }
  }

  /** In every state of every run ZPOPMAX goes by priority: what it takes from the waiting set or
      from the execution queue has the highest priority there. */
  lemma PopsGoByPriority(g: Graph, h: Hypotheses, r: Run, z: Zset, p: JobId, k: JobId)
    requires IsRun(g, h, r) && (z == Last(r).db.waiting || z == Last(r).db.queue)
    requires IsPop(z, Some(p)) && k in z
    ensures p in Last(r).db.jobs && k in Last(r).db.jobs
    ensures Last(r).db.jobs[k].priority <= Last(r).db.jobs[p].priority
  {
    RunInRange(g, h, r);
    RunUnmixed(g, h, r);
    UnmixedTop(z, Last(r).db.jobs);
    PopByPriorityIff(z, Last(r).db.jobs, p);
  }

  lemma OrderOfScores(jobs: map<JobId, Job>, j: JobId, sj: int, k: JobId, sk: int)
    requires Unmixed(jobs) && j in jobs && k in jobs
    requires IsScore(jobs[j].priority, sj, true) && IsScore(jobs[k].priority, sk, true) && sk <= sj
    ensures jobs[k].priority <= jobs[j].priority
  {
  }

  /** A job that gets a slot in a step of a run has at least the priority of every job left READY. */
  lemma PromotionByPriority(g: Graph, h: Hypotheses, r: Run, j: JobId, k: JobId)
    requires IsRun(g, h, r) && r.Then?
    requires j in Last(r).db.queue && j !in Last(r.before).db.queue
    requires k in Last(r).db.jobs && Last(r).db.jobs[k].status == Ready
    ensures j in Last(r).db.jobs && Last(r).db.jobs[k].priority <= Last(r).db.jobs[j].priority
  {
    RunReachable(g, h, r);
    RunScored(g, h, r, true);
    RunUnmixed(g, h, r);
    StepOutranks(Last(r.before), r.step);
    OrderOfScores(Last(r).db.jobs, j, Last(r).db.queue[j], k, Last(r).db.waiting[k]);
  }

  /** Every score is the priority of its job. */
  ghost predicate Faithful(db: Store) {
    Scored(db, false)
  }

  /** Job `j` has a place and a score from the start. */
  lemma RootIsScored(g: Graph, s: State, j: JobId)
    requires Initial(g, s) && j in g && g[j] == {}
    ensures j in s.db.jobs
    ensures (j in s.db.waiting && s.db.waiting[j] == Unsigned32(s.db.jobs[j].priority))
         || (j in s.db.queue && s.db.queue[j] == Unsigned32(s.db.jobs[j].priority))
  {
    assert InitialJob(g, j, s.db.jobs[j]);
  }

  lemma FaithfulRoot(g: Graph, s: State, j: JobId)
    requires Initial(g, s) && j in g && g[j] == {} && Faithful(s.db)
    ensures j in s.db.jobs && 0 <= s.db.jobs[j].priority
  {
    RootIsScored(g, s, j);
  }

  /** The scores are the priorities in every state of every run if and only if no job without
      dependencies was admitted with a negative priority. */
  lemma ScoresArePriorities(g: Graph, h: Hypotheses, s: State)
    requires Initial(g, s)
    ensures (forall r :: IsRun(g, h, r) && First(r) == s ==> Faithful(Last(r).db)) <==> NoNegativeRoot(g, s.db.jobs)
  {
    if NoNegativeRoot(g, s.db.jobs) {
      forall r | IsRun(g, h, r) && First(r) == s ensures Faithful(Last(r).db) {
        RunScored(g, h, r, false);
      }
    } else {
      var j :| j in g && g[j] == {} && j in s.db.jobs && s.db.jobs[j].priority < 0;
      var r := Admitted(s);
      assert IsRun(g, h, r) && First(r) == s;
      if Faithful(Last(r).db) { FaithfulRoot(g, s, j); }
    }
  }
}
