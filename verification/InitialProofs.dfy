/** Admission establishes every invariant. */
module InitialProofs {
  import opened Dag
  import opened Runtime
  import opened Protocol
  import opened Invariants

  predicate NotStarted(st: JobStatus) {
    st == Pending || st == Ready || st == Queued
  }

  ghost predicate NothingStarted(jobs: map<JobId, Job>) {
    forall j :: j in jobs ==> NotStarted(jobs[j].status)
  }

  lemma InitialStatuses(g: Graph, s: State)
    requires Initial(g, s)
    ensures NothingStarted(s.db.jobs)
  {
    forall j | j in s.db.jobs ensures NotStarted(s.db.jobs[j].status) {
      assert InitialJob(g, j, s.db.jobs[j]);
    }
  }

  lemma UnmetAtFirst(g: Graph, jobs: map<JobId, Job>, j: JobId)
    requires j in g && j in jobs && InitialJob(g, j, jobs[j]) && NothingStarted(jobs)
    ensures DepsCounted(g, jobs, j)
  {
    assert Unmet(g, jobs, j) == g[j];
  }

  lemma InitialDependencies(g: Graph, s: State)
    requires Initial(g, s)
    ensures Dependencies(g, s.db)
  {
    InitialStatuses(g, s);
    forall j | j in g ensures DepsCounted(g, s.db.jobs, j) {
      UnmetAtFirst(g, s.db.jobs, j);
    }
  }

  lemma InitialZsets(g: Graph, s: State)
    requires Initial(g, s)
    ensures Zsets(s.db) && Covered(s)
  {
    InitialStatuses(g, s);
    forall j | j in s.db.jobs ensures Placed(s, j) {
    }
  }

  lemma ActiveAtFirst(jobs: map<JobId, Job>)
    requires NothingStarted(jobs)
    ensures Active(jobs) == WithStatus(jobs, Queued)
  {
  }

  lemma SettledAtFirst(s: State)
    requires NothingStarted(s.db.jobs)
    ensures Settled(s) == {}
  {
    assert Terminal(s.db.jobs) == {};
  }

  lemma NonEmptyGraph(g: Graph)
    requires g != map[]
    ensures |g| > 0
  {
  }

  /** Before the first step the slots are exact: the QUEUED jobs hold them, and whoever waits
      finds all of them taken. */
  lemma ExactAtFirst(db: Store)
    requires NothingStarted(db.jobs) && db.wf.status == WfReady && db.wf.startTime.None?
    requires db.wf.completed == 0 < db.wf.total && db.wf.reserved == |WithStatus(db.jobs, Queued)|
    requires db.waiting != map[] ==> db.wf.reserved == db.wf.maxConcurrent
    ensures Lifecycle(db) && SlotsExact(db)
  {
    ActiveAtFirst(db.jobs);
  }

  lemma WaitingAtFirst(g: Graph, s: State)
    requires Initial(g, s)
    ensures s.db.waiting != map[] ==> s.db.wf.reserved == s.db.wf.maxConcurrent
  {
    if s.db.waiting != map[] {
      var j :| j in s.db.waiting;
      assert j in WithStatus(s.db.jobs, Ready);
    }
  }

  lemma InitialExact(g: Graph, s: State)
    requires Initial(g, s)
    ensures Lifecycle(s.db) && SlotsExact(s.db)
  {
    InitialStatuses(g, s);
    NonEmptyGraph(g);
    WaitingAtFirst(g, s);
    ExactAtFirst(s.db);
  }

  lemma InitialInv(g: Graph, s: State)
    requires Initial(g, s)
    ensures Inv(g, s) && SlotsExact(s.db) && Propagated(s)
  {
    InitialStatuses(g, s);
    InitialDependencies(g, s);
    InitialZsets(g, s);
    ActiveAtFirst(s.db.jobs);
    SettledAtFirst(s);
    NonEmptyGraph(g);
    InitialExact(g, s);
  }
}
