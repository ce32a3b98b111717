/** Each hypothesis of the finishing theorem is needed: dropping any one of them admits a run
    that can go no further with the workflow unfinished.  All three runs are of the same small
    workflow: two independent jobs `A` and `B`. */
module Boundaries {
  import opened Basics
  import opened Dag
  import opened Runtime
  import opened WorkflowScripts
  import opened JobScripts
  import opened Protocol
  import opened Invariants
  import opened Effects
  import opened ScriptSteps
  import opened DependencyProofs
  import opened CountProofs
  import opened Runs
  import opened Liveness

  const A := JobId("a")
  const B := JobId("b")

  const TWO_JOBS: Graph := map[A := {}, B := {}]

  lemma Distinct()
    ensures A != B
  {
    assert A.name[0] != B.name[0];
  }

  /** A job of priority 5 that may be retried `retries` times. */
  function Fresh(st: JobStatus, retries: int): Job {
    Job(st, 0, 5, 0, retries, 0, None)
  }

  function RunningJob(retries: int): Job {
    Fresh(Running, retries).(startTime := Some(1))
  }

  function Flow(st: WorkflowStatus, max: int, reserved: int, completed: int, failed: int): Workflow {
    Workflow(st, 2, max, reserved, 0, completed, failed, 10, if st == WfReady then None else Some(1))
  }

  function Pair(wf: Workflow, a: Job, b: Job, waiting: Zset, queue: Zset, retries: Zset, tokens: map<nat, Token>): State {
    State(Store(wf, map[A := a, B := b], map[], waiting, queue, retries), tokens, [A, B], 0)
  }

  lemma PairIsAcyclic()
    ensures Closed(TWO_JOBS) && Acyclic(TWO_JOBS) && TWO_JOBS != map[]
  {
    Distinct();
    TopologicalIsAcyclic(TWO_JOBS, [A, B]);
    assert A in TWO_JOBS;
  }

  lemma EmptyIsQuiescent(s: State)
    requires s.tokens == map[] && s.db.queue == map[] && s.db.retries == map[]
    ensures Quiescent(s)
  {
  }

  /** A run that can go no further and leaves the workflow unfinished. */
  ghost predicate GetsStuck(h: Hypotheses, r: Run) {
    && IsRun(TWO_JOBS, h, r) && 1 <= Last(r).db.wf.maxConcurrent
    && Quiescent(Last(r)) && Last(r).signals == 0 && Last(r).db.wf.completed < Last(r).db.wf.total
  }

  // ---------------------------------------------------------------- one slot

  /** `A` is queued and `B` waits. */
  function OneSlot(): State {
    Pair(Flow(WfReady, 1, 1, 0, 0), Fresh(Queued, 1), Fresh(Ready, 1), map[B := 5], map[A := 5], map[], map[])
  }

  /** `A` is held by token 0. */
  function OneHeld(wf: Workflow, a: Job, p: Phase): State {
    Pair(wf, a, Fresh(Ready, 1), map[B := 5], map[], map[], map[0 := Token(A, p)])
  }

  function OneLeft(wf: Workflow, a: Job): State {
    Pair(wf, a, Fresh(Ready, 1), map[B := 5], map[], map[], map[])
  }

  /** What any first state of the pair has in common. */
  lemma PairStarts(s: State, max: int, reserved: int, a: Job, b: Job, waiting: Zset, queue: Zset)
    requires s == Pair(Flow(WfReady, max, reserved, 0, 0), a, b, waiting, queue, map[], map[])
    requires InitialJob(map[A := {}], A, a) && InitialJob(map[B := {}], B, b) && a.priority == b.priority
    ensures s.db.jobs.Keys == TWO_JOBS.Keys && WithStatus(s.db.jobs, Pending) == {}
    ensures forall j {:trigger InitialJob(TWO_JOBS, j, s.db.jobs[j])} :: j in TWO_JOBS ==> InitialJob(TWO_JOBS, j, s.db.jobs[j])
    ensures forall k {:trigger ListsSuccessors(TWO_JOBS, s.db, k)} :: k in TWO_JOBS ==> ListsSuccessors(TWO_JOBS, s.db, k)
    ensures forall j, k {:trigger RankedFor(s.db.jobs, j, k)} :: j in s.db.jobs && k in s.db.jobs ==> RankedFor(s.db.jobs, j, k)
    ensures NoDup(s.roster) && Elems(s.roster) == TWO_JOBS.Keys && Unmixed(s.db.jobs)
  {
    Distinct();
  }

  lemma PairHasTwo()
    ensures |TWO_JOBS| == 2
  {
    Distinct();
    assert TWO_JOBS.Keys == {A, B};
  }

  lemma StatusesOfPair(a: Job, b: Job, st: JobStatus)
    ensures WithStatus(map[A := a, B := b], st) == (if a.status == st then {A} else {}) + (if b.status == st then {B} else {})
  {
    Distinct();
  }

  lemma OneSlotZsets()
    ensures var db := OneSlot().db;
      && WithStatus(db.jobs, Queued) == {A} && WithStatus(db.jobs, Ready) == {B}
      && db.waiting == (map j | j in WithStatus(db.jobs, Ready) :: Unsigned32(db.jobs[j].priority))
      && db.queue == (map j | j in WithStatus(db.jobs, Queued) :: Unsigned32(db.jobs[j].priority))
  {
    Distinct();
    StatusesOfPair(Fresh(Queued, 1), Fresh(Ready, 1), Queued);
    StatusesOfPair(Fresh(Queued, 1), Fresh(Ready, 1), Ready);
  }

  lemma OneSlotIsInitial()
    ensures Initial(TWO_JOBS, OneSlot())
  {
    PairIsAcyclic();
    PairHasTwo();
    PairStarts(OneSlot(), 1, 1, Fresh(Queued, 1), Fresh(Ready, 1), OneSlot().db.waiting, OneSlot().db.queue);
    OneSlotZsets();
  }

  lemma PopA(h: Hypotheses)
    ensures Next(h, OneSlot(), Pop(A, 0), OneHeld(Flow(WfReady, 1, 1, 0, 0), Fresh(Queued, 1), Popped))
  {
    Distinct();
    assert OneSlot().db.queue - {A} == map[];
  }

  lemma JobAUpdate(a: Job, b: Job, a': Job)
    ensures map[A := a, B := b][A := a'] == map[A := a', B := b]
  {
    Distinct();
  }

  lemma ClaimA(h: Hypotheses, wf: Workflow)
    ensures Next(h, OneHeld(wf, Fresh(Queued, 1), Popped), ClaimJob(0), OneHeld(wf, Fresh(PendingExecution, 1), Claimed))
  {
    JobAUpdate(Fresh(Queued, 1), Fresh(Ready, 1), Fresh(PendingExecution, 1));
  }

  /** Steps that only move the token of `A`. */
  lemma MoveA(h: Hypotheses, wf: Workflow, a: Job, p: Phase, step: Step, p': Phase)
    requires match step
      case PayloadFails(t) => t == 0 && p == Claimed && p' == InStream(AbortedRun(true))
      case Finish(t, ok) => t == 0 && p == Executing && ok && p' == InStream(Succeeded)
      case Take(t) => t == 0 && p.InStream? && p' == Handling(p.outcome, wf.status)
      case _ => false
    ensures Next(h, OneHeld(wf, a, p), step, OneHeld(wf, a, p'))
  {
  }

  lemma FailAWhileReady(h: Hypotheses)
    requires !h.noEarlyAbort
    ensures Next(h, OneHeld(Flow(WfReady, 1, 1, 0, 0), Fresh(PendingExecution, 1), Handling(AbortedRun(true), WfReady)),
                 HandleFailure(0, 0, 0, Some(B)),
                 OneHeld(Flow(WfReady, 1, 1, 1, 1), Fresh(Failed, 1).(retryCount := 2), MarkingAborted))
  {
    JobAUpdate(Fresh(PendingExecution, 1), Fresh(Ready, 1), Fresh(Failed, 1).(retryCount := 2));
  }

  lemma MarkA(h: Hypotheses, wf: Workflow, a: Job)
    ensures Next(h, OneHeld(wf, a, MarkingAborted), MarkAborted(0), OneLeft(wf, a.(status := Aborted)))
  {
    JobAUpdate(a, Fresh(Ready, 1), a.(status := Aborted));
    assert map[0 := Token(A, MarkingAborted)] - {0} == map[];
  }

  lemma OneLeftIsIdle(wf: Workflow, a: Job)
    requires !IsUnderWay(a.status)
    ensures !SomethingUnderWay(OneLeft(wf, a).db)
  {
    Distinct();
  }

  lemma Extend(h: Hypotheses, r: Run, step: Step, s: State) returns (r': Run)
    requires IsRun(TWO_JOBS, h, r) && Next(h, Last(r), step, s)
    ensures IsRun(TWO_JOBS, h, r') && Last(r') == s
  {
    r' := Then(r, step, s);
  }

  /** The run up to the claim of `A`. */
  lemma UpToClaim(h: Hypotheses) returns (r: Run)
    ensures IsRun(TWO_JOBS, h, r) && Last(r) == OneHeld(Flow(WfReady, 1, 1, 0, 0), Fresh(PendingExecution, 1), Claimed)
  {
    var wf := Flow(WfReady, 1, 1, 0, 0);
    OneSlotIsInitial();
    PopA(h);
    r := Extend(h, Admitted(OneSlot()), Pop(A, 0), OneHeld(wf, Fresh(Queued, 1), Popped));
    ClaimA(h, wf);
    r := Extend(h, r, ClaimJob(0), OneHeld(wf, Fresh(PendingExecution, 1), Claimed));
  }

  /** The payload of `A` cannot be fetched, and its ABORTED record is handled while the workflow
      is READY: the slot is not given back and `B` waits for ever. */
  lemma EarlyAbortGetsStuck() returns (r: Run)
    ensures GetsStuck(Hypotheses(true, false, true), r)
    ensures IsLive(Last(r).db.wf) && !SomethingUnderWay(Last(r).db)
  {
    OneLeftIsIdle(Flow(WfReady, 1, 1, 1, 1), Fresh(Aborted, 1).(retryCount := 2));
    var h, wf, a := Hypotheses(true, false, true), Flow(WfReady, 1, 1, 0, 0), Fresh(PendingExecution, 1);
    r := UpToClaim(h);
    MoveA(h, wf, a, Claimed, PayloadFails(0), InStream(AbortedRun(true)));
    r := Extend(h, r, PayloadFails(0), OneHeld(wf, a, InStream(AbortedRun(true))));
    MoveA(h, wf, a, InStream(AbortedRun(true)), Take(0), Handling(AbortedRun(true), WfReady));
    r := Extend(h, r, Take(0), OneHeld(wf, a, Handling(AbortedRun(true), WfReady)));
    FailAWhileReady(h);
    wf, a := Flow(WfReady, 1, 1, 1, 1), Fresh(Failed, 1).(retryCount := 2);
    r := Extend(h, r, HandleFailure(0, 0, 0, Some(B)), OneHeld(wf, a, MarkingAborted));
    MarkA(h, wf, a);
    r := Extend(h, r, MarkAborted(0), OneLeft(wf, a.(status := Aborted)));
    EmptyIsQuiescent(Last(r));
  }

  lemma StartA(h: Hypotheses)
    ensures Next(h, OneHeld(Flow(WfReady, 1, 1, 0, 0), Fresh(PendingExecution, 1), Claimed), StartJob(0, 1),
                 OneHeld(Flow(WfRunning, 1, 1, 0, 0), RunningJob(1), Executing))
  {
    JobAUpdate(Fresh(PendingExecution, 1), Fresh(Ready, 1), RunningJob(1));
  }

  lemma TimeOut(h: Hypotheses)
    requires !h.noTimeout
    ensures Next(h, OneHeld(Flow(WfRunning, 1, 1, 0, 0), RunningJob(1), Handling(Succeeded, WfRunning)), HandleSuccess(0, 12, None),
                 OneHeld(Flow(WfFailed, 1, 1, 0, 0), RunningJob(1), Handling(FailedRun(true), WfRunning)))
  {
    Distinct();
  }

  lemma FailAWhileFailed(h: Hypotheses)
    ensures Next(h, OneHeld(Flow(WfFailed, 1, 1, 0, 0), RunningJob(1), Handling(FailedRun(true), WfRunning)),
                 HandleFailure(0, 12, 0, Some(B)),
                 OneLeft(Flow(WfFailed, 1, 1, 1, 1), RunningJob(1).(status := Failed, retryCount := 2)))
  {
    JobAUpdate(RunningJob(1), Fresh(Ready, 1), RunningJob(1).(status := Failed, retryCount := 2));
    assert map[0 := Token(A, Handling(FailedRun(true), WfRunning))] - {0} == map[];
  }

  /** `A` succeeds after the workflow's time ran out: the workflow FAILS, but its other jobs are
      not canceled, and nothing will ever count them. */
  lemma TimeoutGetsStuck() returns (r: Run)
    ensures GetsStuck(Hypotheses(false, true, true), r)
    ensures Last(r).db.wf.status == WfFailed && !NothingLeftToRun(Last(r).db)
  {
    var h, wf := Hypotheses(false, true, true), Flow(WfRunning, 1, 1, 0, 0);
    r := UpToClaim(h);
    StartA(h);
    r := Extend(h, r, StartJob(0, 1), OneHeld(wf, RunningJob(1), Executing));
    MoveA(h, wf, RunningJob(1), Executing, Finish(0, true), InStream(Succeeded));
    r := Extend(h, r, Finish(0, true), OneHeld(wf, RunningJob(1), InStream(Succeeded)));
    MoveA(h, wf, RunningJob(1), InStream(Succeeded), Take(0), Handling(Succeeded, WfRunning));
    r := Extend(h, r, Take(0), OneHeld(wf, RunningJob(1), Handling(Succeeded, WfRunning)));
    TimeOut(h);
    r := Extend(h, r, HandleSuccess(0, 12, None),
                OneHeld(Flow(WfFailed, 1, 1, 0, 0), RunningJob(1), Handling(FailedRun(true), WfRunning)));
    FailAWhileFailed(h);
    r := Extend(h, r, HandleFailure(0, 12, 0, Some(B)),
                OneLeft(Flow(WfFailed, 1, 1, 1, 1), RunningJob(1).(status := Failed, retryCount := 2)));
    EmptyIsQuiescent(Last(r));
    assert B in Last(r).db.jobs && Last(r).db.jobs[B].status == Ready;
  }

  // ---------------------------------------------------------------- two slots, two handlers

  /** Both jobs are queued; only `A` may be retried. */
  function TwoSlots(): State {
    Pair(Flow(WfReady, 2, 2, 0, 0), Fresh(Queued, 1), Fresh(Queued, 0), map[], map[A := 5, B := 5], map[], map[])
  }

  function TwoHeld(wf: Workflow, a: Job, b: Job, queue: Zset, tokens: map<nat, Token>): State {
    Pair(wf, a, b, map[], queue, map[], tokens)
  }

  lemma TwoSlotsZsets()
    ensures var db := TwoSlots().db;
      && db.waiting == (map j | j in WithStatus(db.jobs, Ready) :: Unsigned32(db.jobs[j].priority))
      && db.queue == (map j | j in WithStatus(db.jobs, Queued) :: Unsigned32(db.jobs[j].priority))
      && |WithStatus(db.jobs, Queued)| == 2 && WithStatus(db.jobs, Ready) == {}
  {
    Distinct();
    StatusesOfPair(Fresh(Queued, 1), Fresh(Queued, 0), Queued);
    StatusesOfPair(Fresh(Queued, 1), Fresh(Queued, 0), Ready);
  }

  lemma TwoSlotsIsInitial()
    ensures Initial(TWO_JOBS, TwoSlots())
  {
    PairIsAcyclic();
    PairHasTwo();
    PairStarts(TwoSlots(), 2, 2, Fresh(Queued, 1), Fresh(Queued, 0), TwoSlots().db.waiting, TwoSlots().db.queue);
    TwoSlotsZsets();
  }

  lemma JobBUpdate(a: Job, b: Job, b': Job)
    ensures map[A := a, B := b][B := b'] == map[A := a, B := b']
  {
    Distinct();
  }

  function Tokens(p: Phase, q: Phase): map<nat, Token> {
    map[0 := Token(A, p), 1 := Token(B, q)]
  }

  lemma PopBoth(h: Hypotheses) returns (r: Run)
    ensures IsRun(TWO_JOBS, h, r)
    ensures Last(r) == TwoHeld(Flow(WfReady, 2, 2, 0, 0), Fresh(Queued, 1), Fresh(Queued, 0), map[], Tokens(Popped, Popped))
  {
    TwoSlotsIsInitial();
    PopFirst(h);
    var s := TwoHeld(Flow(WfReady, 2, 2, 0, 0), Fresh(Queued, 1), Fresh(Queued, 0), map[B := 5], map[0 := Token(A, Popped)]);
    r := Extend(h, Admitted(TwoSlots()), Pop(A, 0), s);
    PopSecond(h);
    r := Extend(h, r, Pop(B, 1), s.(db := s.db.(queue := map[]), tokens := Tokens(Popped, Popped)));
  }

  lemma PopFirst(h: Hypotheses)
    ensures Next(h, TwoSlots(), Pop(A, 0),
      TwoHeld(Flow(WfReady, 2, 2, 0, 0), Fresh(Queued, 1), Fresh(Queued, 0), map[B := 5], map[0 := Token(A, Popped)]))
  {
    Distinct();
    assert TwoSlots().db.queue - {A} == map[B := 5];
  }

  lemma PopSecond(h: Hypotheses)
    ensures var s := TwoHeld(Flow(WfReady, 2, 2, 0, 0), Fresh(Queued, 1), Fresh(Queued, 0), map[B := 5], map[0 := Token(A, Popped)]);
      Next(h, s, Pop(B, 1), s.(db := s.db.(queue := map[]), tokens := Tokens(Popped, Popped)))
  {
    var queue: Zset := map[B := 5];
    assert queue - {B} == map[];
    assert map[0 := Token(A, Popped)][1 := Token(B, Popped)] == Tokens(Popped, Popped);
  }

  lemma TokenUpdates(p: Phase, q: Phase, p': Phase)
    ensures Tokens(p, q)[0 := Token(A, p')] == Tokens(p', q)
    ensures Tokens(p, q)[1 := Token(B, p')] == Tokens(p, p')
  {
  }

  /** Steps that only move one of the two tokens, from phase `p` to `p'`. */
  predicate MovesToken(wf: Workflow, p: Phase, step: Step, p': Phase) {
    match step
    case PayloadFails(_) => p == Claimed && p' == InStream(AbortedRun(true))
    case Finish(_, ok) => p == Executing && !ok && p' == InStream(FailedRun(false))
    case Take(_) => p.InStream? && p' == Handling(p.outcome, wf.status)
    case _ => false
  }

  lemma MoveFirst(h: Hypotheses, wf: Workflow, a: Job, b: Job, p: Phase, q: Phase, step: Step, p': Phase)
    requires MovesToken(wf, p, step, p') && step.tok == 0 && (h.oneHandler && step.Take? ==> !IsHandling(q))
    ensures Next(h, TwoHeld(wf, a, b, map[], Tokens(p, q)), step, TwoHeld(wf, a, b, map[], Tokens(p', q)))
  {
    TokenUpdates(p, q, p');
  }

  lemma MoveSecond(h: Hypotheses, wf: Workflow, a: Job, b: Job, p: Phase, q: Phase, step: Step, q': Phase)
    requires MovesToken(wf, q, step, q') && step.tok == 1 && (h.oneHandler && step.Take? ==> !IsHandling(p))
    ensures Next(h, TwoHeld(wf, a, b, map[], Tokens(p, q)), step, TwoHeld(wf, a, b, map[], Tokens(p, q')))
  {
    TokenUpdates(p, q, q');
  }

  lemma ClaimFirst(h: Hypotheses, wf: Workflow, b: Job, q: Phase)
    ensures Next(h, TwoHeld(wf, Fresh(Queued, 1), b, map[], Tokens(Popped, q)), ClaimJob(0),
                 TwoHeld(wf, Fresh(PendingExecution, 1), b, map[], Tokens(Claimed, q)))
  {
    TokenUpdates(Popped, q, Claimed);
    JobAUpdate(Fresh(Queued, 1), b, Fresh(PendingExecution, 1));
  }

  lemma ClaimSecond(h: Hypotheses, wf: Workflow, a: Job, p: Phase)
    ensures Next(h, TwoHeld(wf, a, Fresh(Queued, 0), map[], Tokens(p, Popped)), ClaimJob(1),
                 TwoHeld(wf, a, Fresh(PendingExecution, 0), map[], Tokens(p, Claimed)))
  {
    TokenUpdates(p, Popped, Claimed);
    JobBUpdate(a, Fresh(Queued, 0), Fresh(PendingExecution, 0));
  }

  lemma StartFirst(h: Hypotheses, b: Job, q: Phase)
    ensures Next(h, TwoHeld(Flow(WfReady, 2, 2, 0, 0), Fresh(PendingExecution, 1), b, map[], Tokens(Claimed, q)), StartJob(0, 1),
                 TwoHeld(Flow(WfRunning, 2, 2, 0, 0), RunningJob(1), b, map[], Tokens(Executing, q)))
  {
    TokenUpdates(Claimed, q, Executing);
    JobAUpdate(Fresh(PendingExecution, 1), b, RunningJob(1));
  }

  function FirstHandled(): Phase {
    Handling(FailedRun(false), WfRunning)
  }

  /** `A` has failed and its handler has read the workflow as RUNNING; `B` is claimed. */
  lemma UpToSnapshot(h: Hypotheses) returns (r: Run)
    ensures IsRun(TWO_JOBS, h, r)
    ensures Last(r) == TwoHeld(Flow(WfRunning, 2, 2, 0, 0), RunningJob(1), Fresh(PendingExecution, 0), map[],
                               Tokens(FirstHandled(), Claimed))
  {
    var wf, b := Flow(WfReady, 2, 2, 0, 0), Fresh(Queued, 0);
    r := PopBoth(h);
    ClaimFirst(h, wf, b, Popped);
    r := Extend(h, r, ClaimJob(0), TwoHeld(wf, Fresh(PendingExecution, 1), b, map[], Tokens(Claimed, Popped)));
    StartFirst(h, b, Popped);
    wf := Flow(WfRunning, 2, 2, 0, 0);
    r := Extend(h, r, StartJob(0, 1), TwoHeld(wf, RunningJob(1), b, map[], Tokens(Executing, Popped)));
    MoveFirst(h, wf, RunningJob(1), b, Executing, Popped, Finish(0, false), InStream(FailedRun(false)));
    r := Extend(h, r, Finish(0, false), TwoHeld(wf, RunningJob(1), b, map[], Tokens(InStream(FailedRun(false)), Popped)));
    MoveFirst(h, wf, RunningJob(1), b, InStream(FailedRun(false)), Popped, Take(0), FirstHandled());
    r := Extend(h, r, Take(0), TwoHeld(wf, RunningJob(1), b, map[], Tokens(FirstHandled(), Popped)));
    ClaimSecond(h, wf, RunningJob(1), FirstHandled());
    r := Extend(h, r, ClaimJob(1), TwoHeld(wf, RunningJob(1), Fresh(PendingExecution, 0), map[], Tokens(FirstHandled(), Claimed)));
  }

  lemma NothingToCancel(a: Job, b: Job)
    requires !IsWaitingToRun(a.status)
    ensures var c := Cancel(map[A := a, B := b], map[], map[], map[], []); CancelAll(c, B, [A, B]) == c
  {
    var c := Cancel(map[A := a, B := b], map[], map[], map[], []);
    assert [A, B][..1] == [A] && [A][..0] == [];
    assert CancelAll(c, B, [A]) == CancelOne(CancelAll(c, B, []), B, A);
  }

  lemma FailSecond(h: Hypotheses)
    ensures Next(h, TwoHeld(Flow(WfRunning, 2, 2, 0, 0), RunningJob(1), Fresh(PendingExecution, 0), map[],
                            Tokens(FirstHandled(), Handling(AbortedRun(true), WfRunning))),
                 HandleFailure(1, 1, 0, None),
                 TwoHeld(Flow(WfFailed, 2, 1, 1, 1), RunningJob(1), Fresh(Failed, 0).(retryCount := 1), map[],
                         Tokens(FirstHandled(), MarkingAborted)))
  {
    JobBUpdate(RunningJob(1), Fresh(PendingExecution, 0), Fresh(Failed, 0).(retryCount := 1));
    NothingToCancel(RunningJob(1), Fresh(Failed, 0).(retryCount := 1));
    TokenUpdates(FirstHandled(), Handling(AbortedRun(true), WfRunning), MarkingAborted);
  }

  lemma MarkSecond(h: Hypotheses, wf: Workflow, a: Job, b: Job, p: Phase)
    ensures Next(h, TwoHeld(wf, a, b, map[], Tokens(p, MarkingAborted)), MarkAborted(1),
                 TwoHeld(wf, a, b.(status := Aborted), map[], map[0 := Token(A, p)]))
  {
    JobBUpdate(a, b, b.(status := Aborted));
    assert Tokens(p, MarkingAborted) - {1} == map[0 := Token(A, p)];
  }

  function Parked(): Job {
    Fresh(RetryDelay, 1).(retryCount := 1)
  }

  /** The handler of `A` goes by what it read: it schedules a retry in the FAILED workflow. */
  lemma RetryFirst(h: Hypotheses, b: Job)
    ensures Next(h, TwoHeld(Flow(WfFailed, 2, 1, 1, 1), RunningJob(1), b, map[], map[0 := Token(A, FirstHandled())]),
                 HandleFailure(0, 1, 5, None),
                 Pair(Flow(WfFailed, 2, 0, 1, 1), Parked(), b, map[], map[], map[A := 5], map[]))
  {
    JobAUpdate(RunningJob(1), b, Parked());
    assert map[0 := Token(A, FirstHandled())] - {0} == map[];
  }

  lemma PopRetryFirst(h: Hypotheses, wf: Workflow, b: Job)
    ensures Next(h, Pair(wf, Parked(), b, map[], map[], map[A := 5], map[]), PopRetry(A, 0, 5),
                 TwoHeld(wf, Parked(), b, map[], map[0 := Token(A, RetryPopped)]))
  {
    var retries: Zset := map[A := 5];
    assert retries - {A} == map[];
  }

  lemma AbandonFirst(h: Hypotheses, wf: Workflow, b: Job)
    requires wf.status == WfFailed
    ensures Next(h, TwoHeld(wf, Parked(), b, map[], map[0 := Token(A, RetryPopped)]), HandleRetry(0, None),
                 TwoHeld(wf, Parked().(status := Aborted), b, map[], map[]))
  {
    JobAUpdate(Parked(), b, Parked().(status := Aborted));
    assert map[0 := Token(A, RetryPopped)] - {0} == map[];
  }

  lemma FailBoth(h: Hypotheses, r: Run) returns (r': Run)
    requires !h.oneHandler && IsRun(TWO_JOBS, h, r)
    requires Last(r) == TwoHeld(Flow(WfRunning, 2, 2, 0, 0), RunningJob(1), Fresh(PendingExecution, 0), map[],
                                Tokens(FirstHandled(), Claimed))
    ensures IsRun(TWO_JOBS, h, r')
    ensures Last(r') == Pair(Flow(WfFailed, 2, 0, 1, 1), Parked(), Fresh(Aborted, 0).(retryCount := 1), map[], map[], map[A := 5], map[])
  {
    var wf, b, p := Flow(WfRunning, 2, 2, 0, 0), Fresh(PendingExecution, 0), FirstHandled();
    MoveSecond(h, wf, RunningJob(1), b, p, Claimed, PayloadFails(1), InStream(AbortedRun(true)));
    r' := Extend(h, r, PayloadFails(1), TwoHeld(wf, RunningJob(1), b, map[], Tokens(p, InStream(AbortedRun(true)))));
    MoveSecond(h, wf, RunningJob(1), b, p, InStream(AbortedRun(true)), Take(1), Handling(AbortedRun(true), WfRunning));
    r' := Extend(h, r', Take(1), TwoHeld(wf, RunningJob(1), b, map[], Tokens(p, Handling(AbortedRun(true), WfRunning))));
    FailSecond(h);
    wf, b := Flow(WfFailed, 2, 1, 1, 1), Fresh(Failed, 0).(retryCount := 1);
    r' := Extend(h, r', HandleFailure(1, 1, 0, None), TwoHeld(wf, RunningJob(1), b, map[], Tokens(p, MarkingAborted)));
    MarkSecond(h, wf, RunningJob(1), b, p);
    b := b.(status := Aborted);
    r' := Extend(h, r', MarkAborted(1), TwoHeld(wf, RunningJob(1), b, map[], map[0 := Token(A, p)]));
    RetryFirst(h, b);
    r' := Extend(h, r', HandleFailure(0, 1, 5, None), Pair(Flow(WfFailed, 2, 0, 1, 1), Parked(), b, map[], map[], map[A := 5], map[]));
  }

  /** Two handlers: while `A`'s failure is being handled, `B` fails the workflow; `A` is parked
      nevertheless, later ABORTED by the retry handler, and never counted. */
  lemma TwoHandlersGetStuck() returns (r: Run)
    ensures GetsStuck(Hypotheses(true, true, false), r)
    ensures Last(r).db.wf.status == WfFailed && Terminal(Last(r).db.jobs) == TWO_JOBS.Keys
  {
    var h, wf, b := Hypotheses(true, true, false), Flow(WfFailed, 2, 0, 1, 1), Fresh(Aborted, 0).(retryCount := 1);
    r := UpToSnapshot(h);
    r := FailBoth(h, r);
    PopRetryFirst(h, wf, b);
    r := Extend(h, r, PopRetry(A, 0, 5), TwoHeld(wf, Parked(), b, map[], map[0 := Token(A, RetryPopped)]));
    AbandonFirst(h, wf, b);
    r := Extend(h, r, HandleRetry(0, None), TwoHeld(wf, Parked().(status := Aborted), b, map[], map[]));
    EmptyIsQuiescent(Last(r));
  }

  // ---------------------------------------------------------------- the same, script by script

  /** A terminal failure in a live workflow keeps the slot equation exactly when the workflow
      is RUNNING: in a READY one the failed job's slot is not given back. */
  lemma FailureKeepsSlotsIffRunning(db: Store, j: JobId, retryCount: int, ids: seq<JobId>)
    requires IsLive(db.wf) && j in db.jobs && IsActive(db.jobs[j].status) && |Active(db.jobs)| == db.wf.reserved
    ensures var db' := CompleteFailed(db, j, retryCount, ids).0;
      (IsLive(db'.wf) ==> |Active(db'.jobs)| == db'.wf.reserved) <==> db.wf.status == WfRunning
  {
    if db.wf.status == WfReady {
      assert Active(CompleteFailed(db, j, retryCount, ids).0.jobs) == Active(db.jobs) - {j};
    }
  }

  /** The success script keeps a FAILED workflow free of jobs left to run exactly when the
      workflow's time has not run out, or there is none such anyway. */
  lemma SuccessPropagatesIffInTime(db: Store, j: JobId, now: int, pick: Option<JobId>)
    requires db.wf.status == WfRunning && j in db.jobs && db.jobs[j].status == Running
    requires SuccessApplies(db, j, now) ==> IsPop(AfterSuccess(db, j).waiting, pick)
    ensures NothingLeftToRun(CompleteSuccessful(db, j, now, pick).0) <==>
      !WorkflowExpired(db.wf, now) || forall k :: k in db.jobs ==> !IsWaitingToRun(db.jobs[k].status)
  {
  }

  /** Scheduling a retry keeps it so exactly when the workflow has not FAILED by then; the gate
      goes by the status read earlier. */
  lemma RetryPropagatesIffNotFailed(db: Store, j: JobId, retryCount: int, retryAt: int, pick: Option<JobId>)
    requires j in db.jobs && IsPop(db.waiting, pick)
    ensures NothingLeftToRun(ScheduleRetry(db, j, retryCount, retryAt, pick).0) <==> db.wf.status != WfFailed
  {
    if db.wf.status == WfFailed {
      assert ScheduleRetry(db, j, retryCount, retryAt, pick).0.jobs[j].status == RetryDelay;
    }
  }

  // ---------------------------------------------------------------- a lost write to the job table

  lemma SuccessTerminalAt(db: Store, j: JobId, slotFree: bool, pick: Option<JobId>, k: JobId)
    requires Zsets(db) && j in db.jobs && db.jobs[j].status == Running && NoDup(SuccessorsOf(db, j))
    requires IsPop(AfterSuccess(db, j).waiting, pick)
    ensures k in Terminal(Promoting(AfterSuccess(db, j), slotFree, pick).0.jobs) <==> k in Terminal(db.jobs) || k == j
  {
    AppliedSuccessBelongs(db, j, slotFree, pick);
    SuccessNewlyTerminal(db, j, slotFree, pick);
    var db1 := Promoting(AfterSuccess(db, j), slotFree, pick).0;
    if k in db.jobs && k != j {
      assert SideEffect(db, db1, k);
      assert k !in NewlyTerminal(db, db1, j);
    }
  }

  lemma SuccessTerminal(db: Store, j: JobId, slotFree: bool, pick: Option<JobId>)
    requires Zsets(db) && j in db.jobs && db.jobs[j].status == Running && NoDup(SuccessorsOf(db, j))
    requires IsPop(AfterSuccess(db, j).waiting, pick)
    ensures Terminal(Promoting(AfterSuccess(db, j), slotFree, pick).0.jobs) == Terminal(db.jobs) + {j}
  {
    forall k ensures k in Terminal(Promoting(AfterSuccess(db, j), slotFree, pick).0.jobs) <==> k in Terminal(db.jobs) || k == j {
      SuccessTerminalAt(db, j, slotFree, pick, k);
    }
  }

  lemma CanceledExactly(db: Store, j: JobId, retryCount: int, ids: seq<JobId>)
    requires j in db.jobs
    ensures var reply := CompleteFailed(db, j, retryCount, ids).1;
      NoDup(reply.canceled) && forall k :: k in reply.canceled <==> IsCanceled(db, j, ids, k)
  {
    var jobs := MarkFailed(db, j, retryCount).jobs;
    CancelAllCanceled(Cancel(jobs, db.waiting, db.queue, db.retries, []), j, ids);
    assert forall k :: k != j ==> (Cancelable(jobs, j, k) <==> Cancelable(db.jobs, j, k));
  }

  lemma FailureTerminal(db: Store, j: JobId, retryCount: int, ids: seq<JobId>)
    requires j in db.jobs && IsTerminal(db.jobs[j].status)
    ensures var (db', reply) := CompleteFailed(db, j, retryCount, ids);
      && NoDup(reply.canceled) && Terminal(db.jobs) !! Elems(reply.canceled)
      && Terminal(db'.jobs) == Terminal(db.jobs) + Elems(reply.canceled)
  {
    FailurePointwise(db, j, retryCount, ids);
    CanceledExactly(db, j, retryCount, ids);
  }

  lemma LostWriteTerminal(db: Store, j: JobId, now: int, pick: Option<JobId>, retryCount: int, ids: seq<JobId>)
    requires Zsets(db) && SuccessApplies(db, j, now) && db.jobs[j].status == Running && NoDup(SuccessorsOf(db, j))
    requires IsPop(AfterSuccess(db, j).waiting, pick)
    ensures var db1 := CompleteSuccessful(db, j, now, pick).0;
      && j in db1.jobs && db1.jobs[j].status == Completed
      && var (db2, reply) := CompleteFailed(db1, j, retryCount, ids);
         |Terminal(db2.jobs)| == |Terminal(db.jobs)| + 1 + |reply.canceled|
  {
    AppliedSuccess(db, j, now, pick);
    AppliedSuccessBelongs(db, j, SuccessPromotes(db), pick);
    SuccessTerminal(db, j, SuccessPromotes(db), pick);
    var db1 := CompleteSuccessful(db, j, now, pick).0;
    FailureTerminal(db1, j, retryCount, ids);
    ElemsCard(CompleteFailed(db1, j, retryCount, ids).1.canceled);
  }

  /** When the write to the job table fails after the success script took effect, the handler
      passes the record on to the failure path: the COMPLETED job is FAILED and counted again,
      one more than the jobs that turned terminal. */
  lemma LostWriteCountsTwice(db: Store, j: JobId, now: int, pick: Option<JobId>, retryCount: int, ids: seq<JobId>)
    requires Zsets(db) && SuccessApplies(db, j, now) && db.jobs[j].status == Running && NoDup(SuccessorsOf(db, j))
    requires IsPop(AfterSuccess(db, j).waiting, pick)
    ensures var db1 := CompleteSuccessful(db, j, now, pick).0;
      && j in db1.jobs && db1.jobs[j].status == Completed
      && var (db2, reply) := CompleteFailed(db1, j, retryCount, ids);
         && j in db2.jobs && db2.jobs[j].status == Failed
         && |Terminal(db2.jobs)| == |Terminal(db.jobs)| + 1 + |reply.canceled|
         && db2.wf.completed == db.wf.completed + 2 + |reply.canceled|
  {
    LostWriteTerminal(db, j, now, pick, retryCount, ids);
    AppliedSuccess(db, j, now, pick);
    FailureOwnJob(CompleteSuccessful(db, j, now, pick).0, j, retryCount, ids);
  }
}
