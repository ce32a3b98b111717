/** Runs of the protocol and what is true in every state of every run. */
module Runs {
  import opened Dag
  import opened Runtime
  import opened Protocol
  import opened Invariants
  import opened InitialProofs
  import opened Effects
  import opened Preservation
  import opened HypothesisProofs
  import opened LedgerProofs

  /** A finite run: admitted runtime data, then one step after another. */
  datatype Run = Admitted(first: State) | Then(before: Run, step: Step, after: State)

  function Last(r: Run): State {
    match r case Admitted(s) => s case Then(_, _, s) => s
  }

  function First(r: Run): State {
    match r case Admitted(s) => s case Then(before, _, _) => First(before)
  }

  ghost predicate IsRun(g: Graph, h: Hypotheses, r: Run) {
    match r
    case Admitted(s) => Initial(g, s)
    case Then(before, step, s) => IsRun(g, h, before) && Next(h, Last(before), step, s)
  }

  ghost predicate Reachable(g: Graph, h: Hypotheses, s: State) {
    && Inv(g, s)
    && (h.noEarlyAbort ==> SlotsExact(s.db))
    && (h.noTimeout && h.oneHandler ==> Propagated(s))
  }

  lemma StepReachable(g: Graph, h: Hypotheses, s: State, step: Step, s': State)
    requires Reachable(g, h, s) && Next(h, s, step, s')
    ensures Reachable(g, h, s')
  {
    StepInv(g, s, step);
    if h.noEarlyAbort { StepExact(g, h, s, step); }
    if h.noTimeout && h.oneHandler { StepPropagated(g, h, s, step); }
  }

  /** The last state of every run satisfies the invariants of its hypotheses. */
  lemma {:induction false} RunReachable(g: Graph, h: Hypotheses, r: Run)
    requires IsRun(g, h, r)
    ensures Reachable(g, h, Last(r))
  {
    match r
    case Admitted(s) => InitialInv(g, s);
    case Then(before, step, s) =>
      RunReachable(g, h, before);
      StepReachable(g, h, Last(before), step, s);
  }

  // ---------------------------------------------------------------- slots

  lemma ActiveByStatus(jobs: map<JobId, Job>)
    ensures |Active(jobs)| ==
      |WithStatus(jobs, Queued)| + |WithStatus(jobs, PendingExecution)| + |WithStatus(jobs, Running)|
  {
    var q, p, r := WithStatus(jobs, Queued), WithStatus(jobs, PendingExecution), WithStatus(jobs, Running);
    assert Active(jobs) == q + p + r && q !! p && (q + p) !! r;
  }

  /** The ABORTED records handled in the run while the workflow was READY. */
  ghost function EarlyAborts(r: Run): nat {
    match r
    case Admitted(_) => 0
    case Then(before, step, _) => EarlyAborts(before) + if IsEarlyAbort(Last(before), step) then 1 else 0
  }

  lemma {:induction false} NoEarlyAborts(g: Graph, h: Hypotheses, r: Run)
    requires IsRun(g, h, r)
    ensures EarlyAborts(r) == 0 <==> IsRun(g, h.(noEarlyAbort := true), r)
  {
    if r.Then? { NoEarlyAborts(g, h, r.before); }
  }

  lemma InitialLeak(g: Graph, s: State)
    requires Initial(g, s)
    ensures Leak(s.db) == 0
  {
    InitialStatuses(g, s);
    ActiveAtFirst(s.db.jobs);
  }

  lemma {:induction false} RunLeak(g: Graph, h: Hypotheses, r: Run)
    requires IsRun(g, h, r) && IsLive(Last(r).db.wf)
    ensures Leak(Last(r).db) == EarlyAborts(r)
  {
    match r
    case Admitted(s) => InitialLeak(g, s);
    case Then(before, step, s) =>
      RunReachable(g, h, before);
      LiveBefore(g, Last(before), step);
      RunLeak(g, h, before);
      StepLeak(g, Last(before), step);
  }

  /** The documented slot equation, exactly: an upper bound always, and while the workflow is live
      the reserved slots are the ones in use plus one for each early abort. */
  lemma SlotAccounting(g: Graph, h: Hypotheses, r: Run)
    requires IsRun(g, h, r)
    ensures var db := Last(r).db;
      var used := |WithStatus(db.jobs, Queued)| + |WithStatus(db.jobs, PendingExecution)| + |WithStatus(db.jobs, Running)|;
      && used <= db.wf.reserved <= db.wf.maxConcurrent
      && (IsLive(db.wf) ==> db.wf.reserved == used + EarlyAborts(r))
      && (h.noEarlyAbort ==> EarlyAborts(r) == 0)
  {
    RunReachable(g, h, r);
    ActiveByStatus(Last(r).db.jobs);
    NoEarlyAborts(g, h, r);
    if IsLive(Last(r).db.wf) { RunLeak(g, h, r); }
  }

  // ---------------------------------------------------------------- custody

  datatype Place = WaitingSet | ExecutionQueue | RetrySet | HeldBy(tok: nat)

  ghost predicate IsAt(s: State, j: JobId, p: Place) {
    match p
    case WaitingSet => j in s.db.waiting
    case ExecutionQueue => j in s.db.queue
    case RetrySet => j in s.db.retries
    case HeldBy(t) => t in s.tokens && s.tokens[t].job == j
  }

  lemma AtMostOnePlace(s: State, j: JobId, p: Place, q: Place)
    requires Zsets(s.db) && Custody(s) && IsAt(s, j, p) && IsAt(s, j, q)
    ensures p == q
  {
    if p.HeldBy? { SoleHolder(s, p.tok); }
    if q.HeldBy? { SoleHolder(s, q.tok); }
  }

  lemma SomePlace(s: State, j: JobId) returns (p: Place)
    requires Zsets(s.db) && Covered(s) && j in s.db.jobs
    requires s.db.jobs[j].status != Pending && !IsTerminal(s.db.jobs[j].status)
    ensures IsAt(s, j, p)
  {
    assert Placed(s, j);
    if j in s.db.waiting {
      p := WaitingSet;
    } else if j in s.db.queue {
      p := ExecutionQueue;
    } else if j in s.db.retries {
      p := RetrySet;
    } else {
      var t :| t in s.tokens && s.tokens[t].job == j;
      p := HeldBy(t);
    }
  }

  /** In every state of every run, with any number of schedulers, workers and handlers, each
      job on its way is in exactly one place, and nobody shares it. */
  lemma SingleCustody(g: Graph, h: Hypotheses, r: Run, j: JobId)
    requires IsRun(g, h, r) && j in g
    ensures j in Last(r).db.jobs
    ensures forall p, q :: IsAt(Last(r), j, p) && IsAt(Last(r), j, q) ==> p == q
    ensures Last(r).db.jobs[j].status != Pending && !IsTerminal(Last(r).db.jobs[j].status)
            ==> exists p :: IsAt(Last(r), j, p)
  {
    RunReachable(g, h, r);
    var s := Last(r);
    forall p, q | IsAt(s, j, p) && IsAt(s, j, q) ensures p == q {
      AtMostOnePlace(s, j, p, q);
    }
    if s.db.jobs[j].status != Pending && !IsTerminal(s.db.jobs[j].status) {
      var p := SomePlace(s, j);
    }
  }

  ghost function PoppedJobs(s: State): set<JobId> {
    set t | t in s.tokens && s.tokens[t].phase.Popped? :: s.tokens[t].job
  }

  lemma PoppedStatus(s: State, j: JobId)
    requires Custody(s) && j in PoppedJobs(s)
    ensures j in s.db.jobs && (s.db.jobs[j].status == Queued || s.db.jobs[j].status == Aborted) && j !in s.db.queue
  {
    var t :| t in s.tokens && s.tokens[t].phase.Popped? && s.tokens[t].job == j;
    assert TokenFits(s, t);
  }

  lemma QueuedIsQueuedOrPopped(s: State, j: JobId)
    requires Custody(s) && Covered(s) && j in WithStatus(s.db.jobs, Queued)
    ensures j in s.db.queue || j in PoppedJobs(s)
  {
    assert Placed(s, j);
    if j !in s.db.queue {
      var t :| t in s.tokens && s.tokens[t].job == j;
      assert TokenFits(s, t);
    }
  }

  /** The waiting set is the READY jobs; the queue and the popped, uncanceled jobs are the QUEUED ones. */
  lemma QueuesAreStatuses(g: Graph, h: Hypotheses, r: Run)
    requires IsRun(g, h, r)
    ensures var s := Last(r);
      && s.db.waiting.Keys == WithStatus(s.db.jobs, Ready)
      && s.db.queue.Keys + (PoppedJobs(s) - WithStatus(s.db.jobs, Aborted)) == WithStatus(s.db.jobs, Queued)
      && s.db.queue.Keys !! PoppedJobs(s)
  {
    RunReachable(g, h, r);
    QueuesMatch(Last(r));
  }

  lemma QueuesMatch(s: State)
    requires Zsets(s.db) && Custody(s) && Covered(s)
    ensures s.db.waiting.Keys == WithStatus(s.db.jobs, Ready)
    ensures s.db.queue.Keys + (PoppedJobs(s) - WithStatus(s.db.jobs, Aborted)) == WithStatus(s.db.jobs, Queued)
    ensures s.db.queue.Keys !! PoppedJobs(s)
  {
    forall j | j in PoppedJobs(s)
      ensures j in s.db.jobs && (s.db.jobs[j].status == Queued || s.db.jobs[j].status == Aborted) && j !in s.db.queue
    {
      PoppedStatus(s, j);
    }
    forall j | j in WithStatus(s.db.jobs, Queued) ensures j in s.db.queue.Keys || j in PoppedJobs(s) {
      QueuedIsQueuedOrPopped(s, j);
    }
  }
}
