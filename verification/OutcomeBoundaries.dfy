/** Two more runs of the two-job workflow: one that is COMPLETED with an ABORTED job, and one,
    under all hypotheses, that leaves a wrong row in the job table. */
module OutcomeBoundaries {
  import opened Basics
  import opened Dag
  import opened Runtime
  import opened WorkflowScripts
  import opened Protocol
  import opened Runs
  import opened OutcomeTheorems
  import opened Liveness
  import opened Finishing
  import opened MirrorWrites
  import opened MirrorRuns
  import opened MirrorOrders
  import opened Boundaries

  /** Only `B` is held. */
  function SecondOnly(wf: Workflow, a: Job, b: Job, retries: Zset, p: Phase): State {
    Pair(wf, a, b, map[], map[], retries, map[1 := Token(B, p)])
  }

  // ---------------------------------------------------------------- COMPLETED with a casualty

  function Casualty(): Job {
    Fresh(Aborted, 1).(retryCount := 2)
  }

  lemma FailFirstWhileReady(h: Hypotheses, b: Job)
    requires !h.noEarlyAbort
    ensures Next(h, TwoHeld(Flow(WfReady, 2, 2, 0, 0), Fresh(PendingExecution, 1), b, map[],
                            Tokens(Handling(AbortedRun(true), WfReady), Popped)),
                 HandleFailure(0, 0, 0, None),
                 TwoHeld(Flow(WfReady, 2, 2, 1, 1), Fresh(Failed, 1).(retryCount := 2), b, map[], Tokens(MarkingAborted, Popped)))
  {
    JobAUpdate(Fresh(PendingExecution, 1), b, Fresh(Failed, 1).(retryCount := 2));
    TokenUpdates(Handling(AbortedRun(true), WfReady), Popped, MarkingAborted);
  }

  lemma MarkFirst(h: Hypotheses, wf: Workflow, a: Job, b: Job, q: Phase)
    ensures Next(h, TwoHeld(wf, a, b, map[], Tokens(MarkingAborted, q)), MarkAborted(0),
                 SecondOnly(wf, a.(status := Aborted), b, map[], q))
  {
    JobAUpdate(a, b, a.(status := Aborted));
    assert Tokens(MarkingAborted, q) - {0} == map[1 := Token(B, q)];
  }

  lemma ClaimRest(h: Hypotheses, wf: Workflow, a: Job)
    ensures Next(h, SecondOnly(wf, a, Fresh(Queued, 0), map[], Popped), ClaimJob(1),
                 SecondOnly(wf, a, Fresh(PendingExecution, 0), map[], Claimed))
  {
    JobBUpdate(a, Fresh(Queued, 0), Fresh(PendingExecution, 0));
  }

  lemma StartRest(h: Hypotheses, a: Job)
    ensures Next(h, SecondOnly(Flow(WfReady, 2, 2, 1, 1), a, Fresh(PendingExecution, 0), map[], Claimed), StartJob(1, 1),
                 SecondOnly(Flow(WfRunning, 2, 2, 1, 1), a, RunningJob(0), map[], Executing))
  {
    JobBUpdate(a, Fresh(PendingExecution, 0), RunningJob(0));
  }

  lemma FinishRest(h: Hypotheses, wf: Workflow, a: Job)
    ensures Next(h, SecondOnly(wf, a, RunningJob(0), map[], Executing), Finish(1, true),
                 SecondOnly(wf, a, RunningJob(0), map[], InStream(Succeeded)))
    ensures Next(h, SecondOnly(wf, a, RunningJob(0), map[], InStream(Succeeded)), Take(1),
                 SecondOnly(wf, a, RunningJob(0), map[], Handling(Succeeded, wf.status)))
  {
  }

  /** The end: COMPLETED, `A` ABORTED, cleanup signalled. */
  function Unsound(): State {
    Pair(Flow(WfCompleted, 2, 1, 2, 1), Casualty(), RunningJob(0).(status := Completed), map[], map[], map[], map[]).(signals := 1)
  }

  lemma LastSuccess(db: Store)
    requires db == SecondOnly(Flow(WfRunning, 2, 2, 1, 1), Casualty(), RunningJob(0), map[], Handling(Succeeded, WfRunning)).db
    ensures AfterSuccess(db, B) == Unsound().db
  {
    JobBUpdate(Casualty(), RunningJob(0), RunningJob(0).(status := Completed));
    var none: map<JobId, seq<JobId>> := map[];
    assert none - {B} == none;
  }

  lemma CompleteRest(h: Hypotheses)
    ensures Next(h, SecondOnly(Flow(WfRunning, 2, 2, 1, 1), Casualty(), RunningJob(0), map[], Handling(Succeeded, WfRunning)),
                 HandleSuccess(1, 1, None), Unsound())
  {
    LastSuccess(SecondOnly(Flow(WfRunning, 2, 2, 1, 1), Casualty(), RunningJob(0), map[], Handling(Succeeded, WfRunning)).db);
    assert map[1 := Token(B, Handling(Succeeded, WfRunning))] - {1} == map[];
  }

  /** Up to the early abort of `A`; `B` is popped. */
  lemma UpToEarlyAbort(h: Hypotheses) returns (r: Run)
    requires !h.noEarlyAbort
    ensures IsRun(TWO_JOBS, h, r) && Last(r) == SecondOnly(Flow(WfReady, 2, 2, 1, 1), Casualty(), Fresh(Queued, 0), map[], Popped)
  {
    var wf, b := Flow(WfReady, 2, 2, 0, 0), Fresh(Queued, 0);
    r := PopBoth(h);
    ClaimFirst(h, wf, b, Popped);
    r := Extend(h, r, ClaimJob(0), TwoHeld(wf, Fresh(PendingExecution, 1), b, map[], Tokens(Claimed, Popped)));
    MoveFirst(h, wf, Fresh(PendingExecution, 1), b, Claimed, Popped, PayloadFails(0), InStream(AbortedRun(true)));
    r := Extend(h, r, PayloadFails(0), TwoHeld(wf, Fresh(PendingExecution, 1), b, map[], Tokens(InStream(AbortedRun(true)), Popped)));
    MoveFirst(h, wf, Fresh(PendingExecution, 1), b, InStream(AbortedRun(true)), Popped, Take(0), Handling(AbortedRun(true), WfReady));
    r := Extend(h, r, Take(0), TwoHeld(wf, Fresh(PendingExecution, 1), b, map[], Tokens(Handling(AbortedRun(true), WfReady), Popped)));
    FailFirstWhileReady(h, b);
    wf := Flow(WfReady, 2, 2, 1, 1);
    r := Extend(h, r, HandleFailure(0, 0, 0, None), TwoHeld(wf, Fresh(Failed, 1).(retryCount := 2), b, map[], Tokens(MarkingAborted, Popped)));
    MarkFirst(h, wf, Fresh(Failed, 1).(retryCount := 2), b, Popped);
    r := Extend(h, r, MarkAborted(0), SecondOnly(wf, Casualty(), b, map[], Popped));
  }

  lemma UnsoundHasCasualty()
    ensures Unsound().db.wf.status == WfCompleted && HasCasualty(Unsound().db) && Unsound().signals == 1
  {
    Distinct();
    assert A in Unsound().db.jobs && IsCasualty(Unsound().db.jobs[A].status);
  }

  /** `A` is aborted while the workflow is READY, then `B` succeeds: the total is reached, the
      workflow is COMPLETED and cleaned up, and `A` never ran. */
  lemma CompletedWithCasualty() returns (r: Run)
    ensures IsRun(TWO_JOBS, Hypotheses(true, false, true), r)
    ensures Last(r).db.wf.status == WfCompleted && HasCasualty(Last(r).db) && Last(r).signals == 1
  {
    var h, wf := Hypotheses(true, false, true), Flow(WfReady, 2, 2, 1, 1);
    r := UpToEarlyAbort(h);
    ClaimRest(h, wf, Casualty());
    r := Extend(h, r, ClaimJob(1), SecondOnly(wf, Casualty(), Fresh(PendingExecution, 0), map[], Claimed));
    StartRest(h, Casualty());
    wf := Flow(WfRunning, 2, 2, 1, 1);
    r := Extend(h, r, StartJob(1, 1), SecondOnly(wf, Casualty(), RunningJob(0), map[], Executing));
    FinishRest(h, wf, Casualty());
    r := Extend(h, r, Finish(1, true), SecondOnly(wf, Casualty(), RunningJob(0), map[], InStream(Succeeded)));
    r := Extend(h, r, Take(1), SecondOnly(wf, Casualty(), RunningJob(0), map[], Handling(Succeeded, WfRunning)));
    CompleteRest(h);
    r := Extend(h, r, HandleSuccess(1, 1, None), Unsound());
    UnsoundHasCasualty();
  }

  // ---------------------------------------------------------------- a refused retry

  /** `A` failed and is parked; the handler read the workflow as RUNNING, and it is. */
  lemma ParkFirst(h: Hypotheses, b: Job, q: Phase)
    ensures Next(h, TwoHeld(Flow(WfRunning, 2, 2, 0, 0), RunningJob(1), b, map[], Tokens(FirstHandled(), q)), HandleFailure(0, 1, 5, None),
                 SecondOnly(Flow(WfRunning, 2, 1, 0, 0), Parked(), b, map[A := 5], q))
  {
    JobAUpdate(RunningJob(1), b, Parked());
    assert Tokens(FirstHandled(), q) - {0} == map[1 := Token(B, q)];
  }

  lemma UnparkFirst(h: Hypotheses, wf: Workflow, b: Job, q: Phase)
    ensures Next(h, SecondOnly(wf, Parked(), b, map[A := 5], q), PopRetry(A, 0, 5),
                 TwoHeld(wf, Parked(), b, map[], Tokens(RetryPopped, q)))
  {
    var retries: Zset := map[A := 5];
    assert retries - {A} == map[];
    assert map[1 := Token(B, q)][0 := Token(A, RetryPopped)] == Tokens(RetryPopped, q);
  }

  lemma FirstIsCanceled(a: Job, b: Job)
    requires a.status == RetryDelay
    ensures CancelAll(Cancel(map[A := a, B := b], map[], map[], map[], []), B, [A, B])
         == Cancel(map[A := a.(status := Aborted), B := b], map[], map[], map[], [A])
  {
    Distinct();
    var c := Cancel(map[A := a, B := b], map[], map[], map[], []);
    var c1 := Cancel(map[A := a.(status := Aborted), B := b], map[], map[], map[], [A]);
    assert [A, B][..1] == [A] && [A][..0] == [];
    JobAUpdate(a, b, a.(status := Aborted));
    var none: Zset := map[];
    assert none - {A} == none;
    assert CancelAll(c, B, [A]) == CancelOne(CancelAll(c, B, []), B, A) == c1;
  }

  function AbortedB(): Phase {
    Handling(AbortedRun(true), WfRunning)
  }

  /** The failure of `B` fails the workflow and cancels `A`, which the retry handler holds. */
  lemma FailRest(h: Hypotheses)
    ensures Next(h, TwoHeld(Flow(WfRunning, 2, 1, 0, 0), Parked(), Fresh(PendingExecution, 0), map[], Tokens(RetryPopped, AbortedB())),
                 HandleFailure(1, 1, 0, None),
                 TwoHeld(Flow(WfFailed, 2, 0, 2, 1), Parked().(status := Aborted), Fresh(Failed, 0).(retryCount := 1), map[],
                         Tokens(RetryPopped, MarkingAborted)).(signals := 1))
  {
    JobBUpdate(Parked(), Fresh(PendingExecution, 0), Fresh(Failed, 0).(retryCount := 1));
    FirstIsCanceled(Parked(), Fresh(Failed, 0).(retryCount := 1));
    TokenUpdates(RetryPopped, AbortedB(), MarkingAborted);
  }

  function Canceled(): Job {
    Parked().(status := Aborted)
  }

  lemma MarkRest(h: Hypotheses, wf: Workflow, b: Job)
    ensures Next(h, TwoHeld(wf, Canceled(), b, map[], Tokens(RetryPopped, MarkingAborted)).(signals := 1), MarkAborted(1),
                 TwoHeld(wf, Canceled(), b.(status := Aborted), map[], map[0 := Token(A, RetryPopped)]).(signals := 1))
  {
    JobBUpdate(Canceled(), b, b.(status := Aborted));
    assert Tokens(RetryPopped, MarkingAborted) - {1} == map[0 := Token(A, RetryPopped)];
  }

  lemma RefuseFirst(h: Hypotheses, wf: Workflow, b: Job)
    requires wf.status == WfFailed
    ensures var s := TwoHeld(wf, Canceled(), b, map[], map[0 := Token(A, RetryPopped)]).(signals := 1);
      && Next(h, s, HandleRetry(0, None), TwoHeld(wf, Canceled(), b, map[], map[]).(signals := 1))
      && Write(RetryHandler, A, Ready) in StepWrites(s, HandleRetry(0, None))
  {
    assert A in [A];
    JobAUpdate(Canceled(), b, Canceled());
    assert map[0 := Token(A, RetryPopped)] - {0} == map[];
  }

  lemma UpToRefusal(h: Hypotheses) returns (r: Run)
    ensures IsRun(TWO_JOBS, h, r)
    ensures Last(r) == TwoHeld(Flow(WfFailed, 2, 0, 2, 1), Canceled(), Fresh(Aborted, 0).(retryCount := 1), map[],
                               map[0 := Token(A, RetryPopped)]).(signals := 1)
  {
    var wf, b := Flow(WfRunning, 2, 1, 0, 0), Fresh(PendingExecution, 0);
    r := UpToSnapshot(h);
    ParkFirst(h, b, Claimed);
    r := Extend(h, r, HandleFailure(0, 1, 5, None), SecondOnly(wf, Parked(), b, map[A := 5], Claimed));
    UnparkFirst(h, wf, b, Claimed);
    r := Extend(h, r, PopRetry(A, 0, 5), TwoHeld(wf, Parked(), b, map[], Tokens(RetryPopped, Claimed)));
    MoveSecond(h, wf, Parked(), b, RetryPopped, Claimed, PayloadFails(1), InStream(AbortedRun(true)));
    r := Extend(h, r, PayloadFails(1), TwoHeld(wf, Parked(), b, map[], Tokens(RetryPopped, InStream(AbortedRun(true)))));
    MoveSecond(h, wf, Parked(), b, RetryPopped, InStream(AbortedRun(true)), Take(1), AbortedB());
    r := Extend(h, r, Take(1), TwoHeld(wf, Parked(), b, map[], Tokens(RetryPopped, AbortedB())));
    FailRest(h);
    wf, b := Flow(WfFailed, 2, 0, 2, 1), Fresh(Failed, 0).(retryCount := 1);
    r := Extend(h, r, HandleFailure(1, 1, 0, None),
                TwoHeld(wf, Canceled(), b, map[], Tokens(RetryPopped, MarkingAborted)).(signals := 1));
    MarkRest(h, wf, b);
    r := Extend(h, r, MarkAborted(1), TwoHeld(wf, Canceled(), b.(status := Aborted), map[], map[0 := Token(A, RetryPopped)]).(signals := 1));
  }

  lemma UpToTheEnd(h: Hypotheses) returns (r: Run)
    requires h == Hypotheses(true, true, true)
    ensures IsRun(TWO_JOBS, h, r) && r.Then? && Quiescent(Last(r)) && Finished(TWO_JOBS, Last(r))
    ensures Last(r).db.jobs == map[A := Canceled(), B := Fresh(Aborted, 0).(retryCount := 1)]
    ensures Write(RetryHandler, A, Ready) in StepWrites(Last(r.before), r.step)
  {
    var wf, b := Flow(WfFailed, 2, 0, 2, 1), Fresh(Aborted, 0).(retryCount := 1);
    var before := UpToRefusal(h);
    RefuseFirst(h, wf, b);
    r := Then(before, HandleRetry(0, None), TwoHeld(wf, Canceled(), b, map[], map[]).(signals := 1));
    assert IsRun(TWO_JOBS, h, r);
    EmptyIsQuiescent(Last(r));
    StuckMeansFinished(TWO_JOBS, h, r);
  }

  /** Under all hypotheses: `A` is parked and taken up by the retry handler, then `B` fails the
      workflow and cancels `A`.  The promotion script refuses `A`, the retry handler records it as
      READY, and if that lands last, so it stays: the finished run leaves a wrong row. */
  lemma RefusedRetryLeavesWrongRow() returns (c: Course)
    ensures IsCourse(TWO_JOBS, Hypotheses(true, true, true), c) && IsOver(Now(c)) && Finished(TWO_JOBS, Now(c).s)
    ensures A in Now(c).s.db.jobs && Now(c).s.db.jobs[A].status == Aborted
    ensures A in Now(c).rows && Now(c).rows[A] == Ready
  {
    var h := Hypotheses(true, true, true);
    var r := UpToTheEnd(h);
    Distinct();
    c := WrongRow(TWO_JOBS, h, r, Write(RetryHandler, A, Ready));
  }
}
