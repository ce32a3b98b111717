/** Deadlock freedom: a live workflow always has a job under way, and a run that can go no
    further has finished the workflow. */
module Liveness {
  import opened Basics
  import opened Dag
  import opened Runtime
  import opened WorkflowScripts
  import opened JobScripts
  import opened Protocol
  import opened Invariants
  import opened Effects
  import opened CountProofs
  import opened Runs

  predicate IsUnderWay(st: JobStatus) {
    IsActive(st) || st == RetryDelay
  }

  ghost predicate SomethingUnderWay(db: Store) {
    exists j :: j in db.jobs && IsUnderWay(db.jobs[j].status)
  }

  /** With no job under way, a live workflow has only PENDING and COMPLETED jobs. */
  lemma IdleStatuses(s: State, j: JobId)
    requires Zsets(s.db) && Covered(s) && SlotsExact(s.db) && IsLive(s.db.wf) && 1 <= s.db.wf.maxConcurrent
    requires !SomethingUnderWay(s.db) && j in s.db.jobs
    ensures s.db.jobs[j].status == Pending || s.db.jobs[j].status == Completed
  {
    assert Placed(s, j);
    assert Active(s.db.jobs) == {};
    assert s.db.jobs[j].status == Ready ==> j in s.db.waiting;
  }

  /** The PENDING jobs of an idle workflow wait for each other. */
  lemma IdlePendingIsTrapped(g: Graph, db: Store)
    requires db.jobs.Keys == g.Keys && Closed(g) && Dependencies(g, db)
    requires forall j :: j in g ==> db.jobs[j].status == Pending || db.jobs[j].status == Completed
    ensures Trapped(g, WithStatus(db.jobs, Pending))
  {
    var r := WithStatus(db.jobs, Pending);
    forall j | j in r ensures DependsInto(g, j, r) {
      assert DepsCounted(g, db.jobs, j);
      var d :| d in Unmet(g, db.jobs, j);
      assert d in g;
      assert d in g[j] && d in r;
    }
  }

  lemma NoAbortInFlight(s: State)
    requires Custody(s)
    requires forall j :: j in s.db.jobs ==> s.db.jobs[j].status == Pending || s.db.jobs[j].status == Completed
    ensures AbortInFlight(s.tokens) == {}
  {
    forall k | k in AbortInFlight(s.tokens) ensures false {
      AborterStatus(s, k);
    }
  }

  /** An idle live workflow with no PENDING job has completed all of them. */
  lemma IdleWithoutPending(g: Graph, s: State)
    requires Shape(g, s) && Custody(s) && Counted(s) && IsLive(s.db.wf)
    requires forall j :: j in s.db.jobs ==> s.db.jobs[j].status == Completed
    ensures s.db.wf.completed == s.db.wf.total
  {
    NoAbortInFlight(s);
    assert Settled(s) == g.Keys;
  }

  lemma LiveHasWork(g: Graph, s: State)
    requires Inv(g, s) && SlotsExact(s.db) && Acyclic(g) && IsLive(s.db.wf) && 1 <= s.db.wf.maxConcurrent
    ensures SomethingUnderWay(s.db)
  {
    if !SomethingUnderWay(s.db) {
      forall j | j in s.db.jobs ensures s.db.jobs[j].status == Pending || s.db.jobs[j].status == Completed {
        IdleStatuses(s, j);
      }
      if WithStatus(s.db.jobs, Pending) == {} {
        forall j | j in s.db.jobs ensures s.db.jobs[j].status == Completed {
          assert j !in WithStatus(s.db.jobs, Pending);
        }
        IdleWithoutPending(g, s);
      } else {
        IdlePendingIsTrapped(g, s.db);
        TrappedSetHasCycle(g, WithStatus(s.db.jobs, Pending));
      }
    }
  }

  lemma {:induction false} RunAcyclic(g: Graph, h: Hypotheses, r: Run)
    requires IsRun(g, h, r)
    ensures Acyclic(g)
  {
    if r.Then? { RunAcyclic(g, h, r.before); }
  }

  /** Deadlock freedom: in every run, a READY or RUNNING workflow has a job QUEUED, claimed,
      RUNNING or parked for retry. */
  lemma DeadlockFree(g: Graph, h: Hypotheses, r: Run)
    requires IsRun(g, h, r) && h.noEarlyAbort
    requires IsLive(Last(r).db.wf) && 1 <= Last(r).db.wf.maxConcurrent
    ensures SomethingUnderWay(Last(r).db)
  {
    RunReachable(g, h, r);
    RunAcyclic(g, h, r);
    LiveHasWork(g, Last(r));
  }

  ghost predicate SomethingParked(db: Store) {
    exists j :: j in db.jobs && db.jobs[j].status == RetryDelay
  }

  lemma UnderWayByStatus(db: Store)
    ensures SomethingUnderWay(db) <==> 0 < |Active(db.jobs)| || SomethingParked(db)
  {
    if j :| j in db.jobs && IsActive(db.jobs[j].status) {
      assert j in Active(db.jobs);
    }
    if 0 < |Active(db.jobs)| {
      var j :| j in Active(db.jobs);
      assert IsUnderWay(db.jobs[j].status);
    }
    if j :| j in db.jobs && db.jobs[j].status == RetryDelay {
      assert IsUnderWay(db.jobs[j].status);
    }
  }

  /** With no hypothesis: a READY or RUNNING workflow has a job under way if and only if fewer
      ABORTED records were handled while READY than slots are reserved, or some job is parked. */
  lemma UnderWayIff(g: Graph, h: Hypotheses, r: Run)
    requires IsRun(g, h, r) && IsLive(Last(r).db.wf)
    ensures SomethingUnderWay(Last(r).db) <==> EarlyAborts(r) < Last(r).db.wf.reserved || SomethingParked(Last(r).db)
  {
    RunLeak(g, h, r);
    UnderWayByStatus(Last(r).db);
  }

  // ---------------------------------------------------------------- runs that go no further

  ghost predicate Quiescent(s: State) {
    forall step :: !Enabled(s, step)
  }

  /** Whoever holds a job can take a step. */
  lemma HolderCanMove(s: State, t: nat) returns (step: Step)
    requires t in s.tokens && TokenFits(s, t)
    ensures Enabled(s, step)
  {
    var j := s.tokens[t].job;
    match s.tokens[t].phase
    case Popped => step := ClaimJob(t);
    case Claimed => step := StartJob(t, 0);
    case Executing => step := Finish(t, true);
    case InStream(_) => step := Take(t);
    case Handling(o, _) =>
      if o.Succeeded? {
        var pick := PopExists(AfterSuccess(s.db, j).waiting);
        step := HandleSuccess(t, 0, pick);
      } else {
        var pick := PopExists(s.db.waiting);
        step := HandleFailure(t, 0, 0, pick);
      }
    case MarkingAborted => step := MarkAborted(t);
    case RetryPopped =>
      var pick := PopExists(RetryToWaiting(s.db, j).waiting);
      step := HandleRetry(t, pick);
  }

  lemma FreshToken(tokens: map<nat, Token>, keys: set<nat>) returns (t: nat)
    requires tokens.Keys <= keys
    ensures t !in tokens && forall u :: u in tokens ==> u < t
    decreases keys
  {
    if keys == {} {
      t := 0;
    } else {
      var k :| k in keys;
      var u := FreshToken(tokens - {k}, keys - {k});
      t := if u <= k then k + 1 else u;
      forall v | v in tokens ensures v < t {
        if v != k { assert v in tokens - {k}; }
      }
    }
  }

  lemma QueueCanBePopped(s: State) returns (step: Step)
    requires s.db.queue != map[]
    ensures Enabled(s, step)
  {
    var t := FreshToken(s.tokens, s.tokens.Keys);
    var pick := PopExists(s.db.queue);
    step := Pop(pick.value, t);
  }

  lemma RetryCanBePopped(s: State) returns (step: Step)
    requires s.db.retries != map[]
    ensures Enabled(s, step)
  {
    var t := FreshToken(s.tokens, s.tokens.Keys);
    var z := s.db.retries;
    var negated := map k | k in z :: -z[k];
    assert negated.Keys == z.Keys;
    var j := MaximalEntry(negated, z.Keys);
    forall k | k in z ensures z[j] <= z[k] {
      assert negated[k] <= negated[j];
    }
    step := PopRetry(j, t, z[j]);
  }

  lemma QuiescentIsEmpty(s: State)
    requires Custody(s) && Quiescent(s)
    ensures s.tokens == map[] && s.db.queue == map[] && s.db.retries == map[]
  {
    if s.tokens != map[] {
      var t :| t in s.tokens;
      SoleHolder(s, t);
      var step := HolderCanMove(s, t);
    }
    if s.db.queue != map[] {
      var step := QueueCanBePopped(s);
    }
    if s.db.retries != map[] {
      var step := RetryCanBePopped(s);
    }
  }

  /** With all places empty nothing is under way. */
  lemma EmptyMeansIdle(s: State)
    requires Covered(s) && s.tokens == map[] && s.db.queue == map[] && s.db.retries == map[]
    ensures !SomethingUnderWay(s.db)
  {
    forall j | j in s.db.jobs ensures !IsUnderWay(s.db.jobs[j].status) {
      assert Placed(s, j);
    }
  }

  lemma FinishedIsTerminal(g: Graph, s: State)
    requires Shape(g, s) && Counted(s) && s.db.wf.completed == s.db.wf.total
    ensures Terminal(s.db.jobs) == g.Keys && s.signals == 1
  {
    SettledBound(g, s);
    assert Settled(s) == g.Keys;
  }
}
