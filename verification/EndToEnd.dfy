/** From an accepted request to the finished workflow. */
module EndToEnd {
  import opened Basics
  import opened Dag
  import opened Sums
  import opened Runtime
  import opened Protocol
  import opened Preservation
  import opened Runs
  import opened Liveness
  import opened Finishing
  import opened Termination
  import opened RuntimeGenerator

  /** Each step of `r` is one the protocol allows under the hypotheses. */
  ghost predicate AreSteps(h: Hypotheses, r: Run) {
    r.Then? ==> AreSteps(h, r.before) && Next(h, Last(r.before), r.step, r.after)
  }

  lemma {:induction false} StepsAreRun(g: Graph, h: Hypotheses, r: Run)
    requires Initial(g, First(r)) && AreSteps(h, r)
    ensures IsRun(g, h, r)
  {
    if r.Then? { StepsAreRun(g, h, r.before); }
  }

  lemma {:induction false} LimitIsConstant(h: Hypotheses, r: Run)
    requires AreSteps(h, r)
    ensures Last(r).db.wf.maxConcurrent == First(r).db.wf.maxConcurrent
  {
    if r.Then? {
      LimitIsConstant(h, r.before);
      StepConstants(Last(r.before), r.step);
    }
  }

  /** An accepted workflow with at least one slot: whatever the schedulers, workers and handlers
      do, in whatever order, they stop within the step budget of its jobs.  When they stop, the
      workflow is finished if and only if nothing went wrong in the run, and under the three
      hypotheses nothing does. */
  lemma AdmittedWorkflowsFinish(g: Graph, db: Store, p: Policy, roster: seq<JobId>, h: Hypotheses, r: Run)
    requires StartsTheProtocol(g, db, p) && 1 <= p.maxConcurrent
    requires NoDup(roster) && Elems(roster) == g.Keys
    requires First(r) == State(db, map[], roster, 0) && AreSteps(h, r)
    ensures Length(r) <= Sum(StepBudget(db.jobs))
    ensures IsRun(g, h, r)
    ensures Quiescent(Last(r)) ==> (Finished(g, Last(r)) <==> IsClean(g, h, r))
    ensures h.noTimeout && h.noEarlyAbort && h.oneHandler ==> IsClean(g, h, r)
  {
    StepsAreRun(g, h, r);
    RunsAreBounded(g, h, r);
    LimitIsConstant(h, r);
    if Quiescent(Last(r)) { StuckFinishedIff(g, h, r); }
    if h.noTimeout && h.noEarlyAbort && h.oneHandler { HypothesesAreClean(g, h, r); }
  }
}
