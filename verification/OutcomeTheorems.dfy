/** Starts, dependency order, outcomes and failure propagation, over all runs. */
module OutcomeTheorems {
  import opened Basics
  import opened Dag
  import opened Runtime
  import opened JobScripts
  import opened Protocol
  import opened Invariants
  import opened InitialProofs
  import opened Effects
  import opened TokenSteps
  import opened CountProofs
  import opened Preservation
  import opened HypothesisProofs
  import opened LedgerProofs
  import opened Moves
  import opened Runs

  // ---------------------------------------------------------------- starting a job

  /** No run ever makes the start script report a violation or an already canceled job: the
      job starts exactly when the workflow is live, and else the workflow has FAILED. */
  lemma StartsAreClean(g: Graph, h: Hypotheses, r: Run, t: nat, now: int)
    requires IsRun(g, h, r) && t in Last(r).tokens && Last(r).tokens[t].phase.Claimed?
    ensures var s := Last(r);
      TryStart(s.db, s.tokens[t].job, now).1 ==
        if s.db.wf.status == WfReady then FirstToStart
        else if s.db.wf.status == WfRunning then Started
        else CanceledByWorkflowState
    ensures IsLive(Last(r).db.wf) || Last(r).db.wf.status == WfFailed
  {
    RunReachable(g, h, r);
    SoleHolder(Last(r), t);
    NotCompleted(g, Last(r), Last(r).tokens[t].job);
    StartIsClean(Last(r).db, Last(r).tokens[t].job, now);
  }

  lemma StartIsClean(db: Store, j: JobId, now: int)
    requires j in db.jobs && db.jobs[j].status == PendingExecution && (db.wf.status == WfReady ==> db.wf.startTime.None?)
    requires db.wf.status == WfReady || db.wf.status == WfRunning || db.wf.status == WfFailed
    ensures TryStart(db, j, now).1 ==
      if db.wf.status == WfReady then FirstToStart
      else if db.wf.status == WfRunning then Started
      else CanceledByWorkflowState
  {
  }

  /** The step starts an attempt of job `j`. */
  ghost predicate IsStartOf(s: State, step: Step, j: JobId) {
    && step.StartJob? && step.tok in s.tokens && s.tokens[step.tok].job == j
    && HasStarted(TryStart(s.db, j, step.now).1)
  }

  ghost predicate StartedIn(r: Run, j: JobId) {
    r.Then? && (StartedIn(r.before, j) || IsStartOf(Last(r.before), r.step, j))
  }

  predicate HasRun(st: JobStatus) {
    st == Running || st == Completed
  }

  /** A step that is no start brings no job to RUNNING or COMPLETED that was neither. */
  lemma RunningOrigin(g: Graph, s: State, step: Step, d: JobId)
    requires Enabled(s, step) && Zsets(s.db) && Custody(s) && s.db.jobs.Keys == g.Keys && Dependencies(g, s.db)
    requires StepShape(s, Apply(s, step), step.tok, StepJob(s, step))
    requires d in s.db.jobs && !IsStartOf(s, step, d)
    ensures HasRun(Apply(s, step).db.jobs[d].status) ==> HasRun(s.db.jobs[d].status)
  {
    if d == StepJob(s, step) {
      StepMove(g, s, step);
      MovesAreOneWay(step, true, s.db.jobs[d].status, Apply(s, step).db.jobs[d].status);
      if step.StartJob? {
        SoleHolder(s, step.tok);
        StartEffect(s.db, d, step.now);
      }
    } else {
      assert SideEffect(s.db, Apply(s, step).db, d);
    }
  }

  /** Whatever is RUNNING or COMPLETED was started in the run. */
  lemma {:induction false} RunningWasStarted(g: Graph, h: Hypotheses, r: Run, d: JobId)
    requires IsRun(g, h, r) && d in Last(r).db.jobs && HasRun(Last(r).db.jobs[d].status)
    ensures StartedIn(r, d)
  {
    match r
    case Admitted(s) => InitialHasNotRun(g, s, d);
    case Then(before, step, s') =>
      RunReachable(g, h, before);
      var s := Last(before);
      StepShaped(g, s, step);
      if !IsStartOf(s, step, d) {
        RunningOrigin(g, s, step, d);
        RunningWasStarted(g, h, before, d);
      }
  }

  lemma InitialHasNotRun(g: Graph, s: State, d: JobId)
    requires Initial(g, s) && d in s.db.jobs
    ensures !HasRun(s.db.jobs[d].status)
  {
    assert InitialJob(g, d, s.db.jobs[d]);
  }

  lemma StartHasDependenciesMet(g: Graph, s: State, t: nat, d: JobId)
    requires s.db.jobs.Keys == g.Keys && Closed(g) && Custody(s) && Dependencies(g, s.db)
    requires t in s.tokens && s.tokens[t].phase.Claimed? && s.tokens[t].job in g && d in g[s.tokens[t].job]
    ensures s.db.jobs[d].status == Completed
  {
    SoleHolder(s, t);
    var j := s.tokens[t].job;
    assert DepsCounted(g, s.db.jobs, j);
    assert d !in Unmet(g, s.db.jobs, j);
  }

  /** A job starts only once all its dependencies are COMPLETED, and each of them was started
      earlier in the same run. */
  lemma DependenciesStartFirst(g: Graph, h: Hypotheses, r: Run, j: JobId, d: JobId)
    requires IsRun(g, h, r) && r.Then? && IsStartOf(Last(r.before), r.step, j) && j in g && d in g[j]
    ensures d in Last(r.before).db.jobs && Last(r.before).db.jobs[d].status == Completed
    ensures StartedIn(r.before, d)
  {
    RunReachable(g, h, r.before);
    StartHasDependenciesMet(g, Last(r.before), r.step.tok, d);
    RunningWasStarted(g, h, r.before, d);
  }

  /** The run up to, and without, the first start of `j`. */
  ghost function BeforeFirstStart(r: Run, j: JobId): Run
    requires StartedIn(r, j)
  {
    if StartedIn(r.before, j) then BeforeFirstStart(r.before, j) else r.before
  }

  /** First starts form a linear extension of the dependency graph. */
  lemma {:induction false} FirstStartsExtendTheGraph(g: Graph, h: Hypotheses, r: Run, j: JobId, d: JobId)
    requires IsRun(g, h, r) && StartedIn(r, j) && j in g && d in g[j]
    ensures StartedIn(BeforeFirstStart(r, j), d) && !StartedIn(BeforeFirstStart(r, j), j)
  {
    if StartedIn(r.before, j) {
      FirstStartsExtendTheGraph(g, h, r.before, j, d);
    } else {
      DependenciesStartFirst(g, h, r, j, d);
    }
  }

  // ---------------------------------------------------------------- outcomes

  /** `p` is `r` or an earlier part of it. */
  ghost predicate IsPrefix(p: Run, r: Run) {
    p == r || (r.Then? && IsPrefix(p, r.before))
  }

  lemma {:induction false} PrefixIsRun(g: Graph, h: Hypotheses, p: Run, r: Run)
    requires IsRun(g, h, r) && IsPrefix(p, r)
    ensures IsRun(g, h, p)
  {
    if p != r { PrefixIsRun(g, h, p, r.before); }
  }

  /** A workflow that is COMPLETED has every job COMPLETED. */
  lemma CompletedMeansAllCompleted(g: Graph, h: Hypotheses, r: Run)
    requires IsRun(g, h, r) && h.noEarlyAbort && Last(r).db.wf.status == WfCompleted
    ensures forall j :: j in g ==> j in Last(r).db.jobs && Last(r).db.jobs[j].status == Completed
  {
    RunReachable(g, h, r);
  }

  predicate IsCasualty(st: JobStatus) {
    st == Failed || st == Aborted
  }

  ghost predicate HasCasualty(db: Store) {
    exists j :: j in db.jobs && IsCasualty(db.jobs[j].status)
  }

  lemma CasualtyStays(g: Graph, s: State, step: Step, j: JobId)
    requires Enabled(s, step) && Inv(g, s) && j in s.db.jobs && IsCasualty(s.db.jobs[j].status)
    ensures j in Apply(s, step).db.jobs && IsCasualty(Apply(s, step).db.jobs[j].status)
  {
    StepJobMove(g, s, step, j);
    MovesAreOneWay(step, j == StepJob(s, step), s.db.jobs[j].status, Apply(s, step).db.jobs[j].status);
  }

  /** The failure that fails the workflow leaves its own job FAILED. */
  lemma FailingStepHasCasualty(g: Graph, s: State, t: nat, now: int, retryAt: int, pick: Option<JobId>)
    requires Enabled(s, HandleFailure(t, now, retryAt, pick)) && Zsets(s.db) && Custody(s) && s.db.wf.status != WfFailed
    requires Apply(s, HandleFailure(t, now, retryAt, pick)).db.wf.status == WfFailed
    ensures HasCasualty(Apply(s, HandleFailure(t, now, retryAt, pick)).db)
  {
    HandleFailureMove(s, t, now, retryAt, pick);
  }

  /** Without timeouts a FAILED workflow has a FAILED or ABORTED job. */
  lemma {:induction false} FailedHasCasualty(g: Graph, h: Hypotheses, r: Run)
    requires IsRun(g, h, r) && h.noTimeout && Last(r).db.wf.status == WfFailed
    ensures HasCasualty(Last(r).db)
  {
    if r.Then? {
      var s, step := Last(r.before), r.step;
      RunReachable(g, h, r.before);
      if s.db.wf.status == WfFailed {
        FailedHasCasualty(g, h, r.before);
        var j :| j in s.db.jobs && IsCasualty(s.db.jobs[j].status);
        CasualtyStays(g, s, step, j);
      } else if step.HandleFailure? {
        FailingStepHasCasualty(g, s, step.tok, step.now, step.retryAt, step.pick);
      } else {
        OnlyFailureFails(g, s, step);
      }
    }
  }

  lemma EarlyAbortIsCasualty(s: State, step: Step)
    requires Enabled(s, step) && Zsets(s.db) && Custody(s) && IsEarlyAbort(s, step)
    ensures HasCasualty(Apply(s, step).db)
  {
    HandleFailureMove(s, step.tok, step.now, step.retryAt, step.pick);
  }

  /** An early abort leaves a casualty for the rest of the run. */
  lemma {:induction false} EarlyAbortStays(g: Graph, h: Hypotheses, r: Run)
    requires IsRun(g, h, r) && EarlyAborts(r) > 0
    ensures HasCasualty(Last(r).db)
  {
    if r.Then? {
      var s, step := Last(r.before), r.step;
      RunReachable(g, h, r.before);
      if IsEarlyAbort(s, step) {
        EarlyAbortIsCasualty(s, step);
      } else {
        EarlyAbortStays(g, h, r.before);
        var j :| j in s.db.jobs && IsCasualty(s.db.jobs[j].status);
        CasualtyStays(g, s, step, j);
      }
    }
  }

  /** Outcome soundness, exactly: a workflow that is COMPLETED has every job COMPLETED if and only
      if no ABORTED record was handled while it was READY. */
  lemma CompletedIffNoEarlyAbort(g: Graph, h: Hypotheses, r: Run)
    requires IsRun(g, h, r) && Last(r).db.wf.status == WfCompleted
    ensures WithStatus(Last(r).db.jobs, Completed) == g.Keys <==> EarlyAborts(r) == 0
  {
    if EarlyAborts(r) == 0 {
      NoEarlyAborts(g, h, r);
      CompletedMeansAllCompleted(g, h.(noEarlyAbort := true), r);
      RunReachable(g, h, r);
    } else {
      EarlyAbortStays(g, h, r);
      var j :| j in Last(r).db.jobs && IsCasualty(Last(r).db.jobs[j].status);
      RunReachable(g, h, r);
      assert j in g && j !in WithStatus(Last(r).db.jobs, Completed);
    }
  }

  /** Once FAILED, a workflow stays FAILED for the rest of the run. */
  lemma {:induction false} FailedIsFinal(g: Graph, h: Hypotheses, p: Run, r: Run)
    requires IsRun(g, h, r) && IsPrefix(p, r) && Last(p).db.wf.status == WfFailed
    ensures Last(r).db.wf.status == WfFailed
  {
    if p != r {
      FailedIsFinal(g, h, p, r.before);
      RunReachable(g, h, r.before);
      StepShaped(g, Last(r.before), r.step);
    }
  }

  /** COMPLETED jobs stay COMPLETED for the rest of the run. */
  lemma {:induction false} CompletedJobIsFinal(g: Graph, h: Hypotheses, p: Run, r: Run, j: JobId)
    requires IsRun(g, h, r) && IsPrefix(p, r) && j in Last(p).db.jobs && Last(p).db.jobs[j].status == Completed
    ensures j in Last(r).db.jobs && Last(r).db.jobs[j].status == Completed
  {
    if p != r {
      CompletedJobIsFinal(g, h, p, r.before, j);
      RunReachable(g, h, r.before);
      StepKeepsCompleted(g, Last(r.before), r.step, j);
    }
  }

  lemma StepKeepsCompleted(g: Graph, s: State, step: Step, j: JobId)
    requires Enabled(s, step) && Inv(g, s) && j in s.db.jobs && s.db.jobs[j].status == Completed
    ensures j in Apply(s, step).db.jobs && Apply(s, step).db.jobs[j].status == Completed
  {
    StepJobMove(g, s, step, j);
    MovesAreOneWay(step, j == StepJob(s, step), s.db.jobs[j].status, Apply(s, step).db.jobs[j].status);
  }

  // ---------------------------------------------------------------- failure propagation

  /** The state of a failed workflow: nothing waits, nothing is queued, nothing is parked. */
  ghost predicate Drained(s: State) {
    && (forall j :: j in s.db.jobs ==> !IsWaitingToRun(s.db.jobs[j].status))
    && s.db.waiting == map[] && s.db.queue == map[] && s.db.retries == map[]
  }

  lemma NothingToRunIsDrained(s: State)
    requires Zsets(s.db) && NothingLeftToRun(s.db) && s.db.wf.status == WfFailed
    ensures Drained(s)
  {
  }

  /** From the step that fails the workflow on, without timeouts and with one handler, the
      workflow is drained, and its COMPLETED jobs are as they were. */
  lemma FailurePropagates(g: Graph, h: Hypotheses, r: Run)
    requires IsRun(g, h, r) && h.noTimeout && h.oneHandler && Last(r).db.wf.status == WfFailed
    ensures Drained(Last(r))
    ensures r.Then? ==> forall j :: j in g && j in Last(r.before).db.jobs ==>
              (j in Last(r).db.jobs
               && (Last(r.before).db.jobs[j].status == Completed ==> Last(r).db.jobs[j].status == Completed))
  {
    RunReachable(g, h, r);
    NothingToRunIsDrained(Last(r));
    if r.Then? {
      RunReachable(g, h, r.before);
      forall j | j in g && j in Last(r.before).db.jobs && Last(r.before).db.jobs[j].status == Completed
        ensures Last(r).db.jobs[j].status == Completed
      {
        StepKeepsCompleted(g, Last(r.before), r.step, j);
      }
    }
  }

  /** After the failure no job starts to run: who is RUNNING was RUNNING when the workflow failed. */
  lemma {:induction false} NothingStartsAfterFailure(g: Graph, h: Hypotheses, p: Run, r: Run, j: JobId)
    requires IsRun(g, h, r) && IsPrefix(p, r) && Last(p).db.wf.status == WfFailed
    requires j in Last(r).db.jobs && Last(r).db.jobs[j].status == Running
    ensures j in Last(p).db.jobs && Last(p).db.jobs[j].status == Running
  {
    if p != r {
      PrefixIsRun(g, h, r.before, r);
      RunReachable(g, h, r.before);
      FailedIsFinal(g, h, p, r.before);
      StepReachable(g, h, Last(r.before), r.step, Last(r));
      FailedStepStartsNothing(g, Last(r.before), r.step, j);
      NothingStartsAfterFailure(g, h, p, r.before, j);
    }
  }

  lemma FailedStepStartsNothing(g: Graph, s: State, step: Step, j: JobId)
    requires Enabled(s, step) && Inv(g, s) && s.db.wf.status == WfFailed && j in s.db.jobs
    ensures j in Apply(s, step).db.jobs
    ensures Apply(s, step).db.jobs[j].status == Running ==> s.db.jobs[j].status == Running
  {
    StepJobMove(g, s, step, j);
    MovesAreOneWay(step, j == StepJob(s, step), s.db.jobs[j].status, Apply(s, step).db.jobs[j].status);
    if step.StartJob? && j == StepJob(s, step) {
      SoleHolder(s, step.tok);
      StartInFailed(s.db, j, step.now);
    }
  }

  lemma StartInFailed(db: Store, j: JobId, now: int)
    requires j in db.jobs && db.jobs[j].status == PendingExecution && db.wf.status == WfFailed
    ensures TryStart(db, j, now).0.jobs[j].status == Aborted
  {
  }

  // ---------------------------------------------------------------- completion counting

  /** The parked jobs given up in the run while the workflow was not RUNNING. */
  ghost function Abandoned(r: Run): nat {
    match r
    case Admitted(_) => 0
    case Then(before, step, _) => Abandoned(before) + if IsAbandonment(Last(before), step) then 1 else 0
  }

  lemma {:induction false} RunUncounted(g: Graph, h: Hypotheses, r: Run)
    requires IsRun(g, h, r)
    ensures Uncounted(Last(r)) == Abandoned(r)
  {
    match r
    case Admitted(s) => InitialInv(g, s);
    case Then(before, step, _) =>
      RunUncounted(g, h, before);
      RunReachable(g, h, before);
      StepUncounted(g, Last(before), step);
  }

  /** `completed_jobs`, exactly: the terminal jobs, less those whose abort record is on its way,
      less the abandoned ones; none is abandoned while the workflow is live, nor without timeouts
      and with one handler. */
  lemma CompletionConservation(g: Graph, h: Hypotheses, r: Run)
    requires IsRun(g, h, r)
    ensures var s := Last(r);
      var inFlight := Terminal(s.db.jobs) * AbortInFlight(s.tokens);
      && s.db.wf.completed + Abandoned(r) == |Terminal(s.db.jobs)| - |inFlight|
      && (IsLive(s.db.wf) || (h.noTimeout && h.oneHandler) ==> Abandoned(r) == 0)
  {
    RunReachable(g, h, r);
    RunUncounted(g, h, r);
    SettledCount(Last(r));
  }

  lemma SettledCount(s: State)
    ensures |Settled(s)| == |Terminal(s.db.jobs)| - |Terminal(s.db.jobs) * AbortInFlight(s.tokens)|
  {
    var inFlight := Terminal(s.db.jobs) * AbortInFlight(s.tokens);
    DifferenceCard(Terminal(s.db.jobs), inFlight);
    assert Settled(s) == Terminal(s.db.jobs) - inFlight;
  }

  /** Cleanup is signalled when the total is reached, at most once, and only with every job
      terminal and no abort record outstanding. */
  lemma CleanupSignalledOnce(g: Graph, h: Hypotheses, r: Run)
    requires IsRun(g, h, r)
    ensures var s := Last(r);
      && s.signals <= 1
      && (s.signals == 1 <==> s.db.wf.completed == s.db.wf.total)
      && (s.signals == 1 ==> Terminal(s.db.jobs) == g.Keys && AbortInFlight(s.tokens) * g.Keys == {})
  {
    RunReachable(g, h, r);
    if Last(r).db.wf.completed == Last(r).db.wf.total { SignalMeansSettled(g, Last(r)); }
  }

  lemma SignalMeansSettled(g: Graph, s: State)
    requires Shape(g, s) && Counted(s) && s.db.wf.completed == s.db.wf.total
    ensures Terminal(s.db.jobs) == g.Keys && AbortInFlight(s.tokens) * g.Keys == {}
  {
    SettledBound(g, s);
    assert Settled(s) == g.Keys;
  }
}
