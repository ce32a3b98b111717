/** Steps that leave every job hash alone or change the status of one held job: popping,
    claiming, starting, finishing, taking a completion record, marking a job ABORTED. */
module TokenSteps {
  import opened Dag
  import opened Runtime
  import opened JobScripts
  import opened Protocol
  import opened Invariants
  import opened Effects

  ghost predicate CustodyInv(s: State) {
    Zsets(s.db) && Custody(s) && Covered(s)
  }

  /** A holder that moves on to another phase keeps its job in place. */
  lemma MovedShape(s: State, s': State, t: nat)
    requires Custody(s) && t in s.tokens && t in s'.tokens && s'.tokens[t].job == s.tokens[t].job
    requires s'.tokens == s.tokens[t := s'.tokens[t]] && TokenFits(s', t)
    requires Zsets(s'.db) && BelongsTo(s.db, s'.db, s.tokens[t].job)
    requires s.db.wf.status == WfFailed ==> s'.db.wf.status == WfFailed
    ensures StepShape(s, s', t, s.tokens[t].job)
  {
    SoleHolder(s, t);
    assert Held(s'.tokens, s.tokens[t].job);
  }

  /** The statuses in which a job may be left without a holder. */
  predicate CanBeLeft(db: Store, j: JobId)
    requires j in db.jobs
  {
    var st := db.jobs[j].status;
    && st != PendingExecution && st != Running && st != Canceled
    && (st == Queued ==> j in db.queue) && (st == RetryDelay ==> j in db.retries)
  }

  lemma DroppedShape(s: State, s': State, t: nat)
    requires Custody(s) && t in s.tokens && s'.tokens == s.tokens - {t}
    requires Zsets(s'.db) && BelongsTo(s.db, s'.db, s.tokens[t].job)
    requires s.tokens[t].job in s'.db.jobs && CanBeLeft(s'.db, s.tokens[t].job)
    requires s.db.wf.status == WfFailed ==> s'.db.wf.status == WfFailed
    ensures StepShape(s, s', t, s.tokens[t].job)
  {
    SoleHolder(s, t);
  }

  lemma PopShape(s: State, j: JobId, t: nat)
    requires CustodyInv(s) && t !in s.tokens && j in s.db.queue
    ensures StepShape(s, AfterPop(s, j, t), t, j)
  {
    var s' := AfterPop(s, j, t);
    forall u | u in s.tokens ensures s.tokens[u].job != j { assert TokenFits(s, u); }
    assert s'.tokens[t].job == j;
  }

  lemma PopRetryShape(s: State, j: JobId, t: nat)
    requires CustodyInv(s) && t !in s.tokens && j in s.db.retries
    ensures StepShape(s, AfterPopRetry(s, j, t), t, j)
  {
    var s' := AfterPopRetry(s, j, t);
    forall u | u in s.tokens ensures s.tokens[u].job != j { assert TokenFits(s, u); }
    assert s'.tokens[t].job == j;
  }

  lemma ClaimBelongs(db: Store, j: JobId)
    requires Zsets(db) && j !in db.queue && (j in db.jobs ==> db.jobs[j].status != Ready)
    ensures Zsets(Claim(db, j).0) && BelongsTo(db, Claim(db, j).0, j)
  {
  }

  /** A popped job is claimed exactly when it was not canceled meanwhile. */
  lemma ClaimShape(s: State, t: nat)
    requires CustodyInv(s) && t in s.tokens && s.tokens[t].phase.Popped?
    ensures StepShape(s, AfterClaim(s, t), t, s.tokens[t].job)
  {
    SoleHolder(s, t);
    ClaimBelongs(s.db, s.tokens[t].job);
    var s' := AfterClaim(s, t);
    if t in s'.tokens { assert s'.tokens[t].job == s.tokens[t].job; }
  }

  lemma PayloadFailureShape(s: State, t: nat)
    requires CustodyInv(s) && t in s.tokens && s.tokens[t].phase.Claimed?
    ensures StepShape(s, AfterPayloadFailure(s, t), t, s.tokens[t].job)
  {
    SoleHolder(s, t);
    assert AfterPayloadFailure(s, t).tokens[t].job == s.tokens[t].job;
  }

  /** A job in PENDING_EXECUTION turns RUNNING when the script reports a start, else ABORTED. */
  lemma StartEffect(db: Store, j: JobId, now: int)
    requires j in db.jobs && db.jobs[j].status == PendingExecution
    ensures var (db', r) := TryStart(db, j, now);
      && (db.wf.status == WfFailed ==> db'.wf.status == WfFailed)
      && (!HasStarted(r) && db.wf.status != WfCanceled ==> db'.wf.status == WfFailed)
      && db'.jobs.Keys == db.jobs.Keys
      && (forall k :: k in db.jobs && k != j ==> db'.jobs[k] == db.jobs[k])
      && db'.jobs[j].status == (if HasStarted(r) then Running else Aborted)
      && db'.waiting == db.waiting && db'.queue == db.queue && db'.retries == db.retries
  {
  }

  lemma StartBelongs(db: Store, j: JobId, now: int)
    requires Zsets(db) && j in db.jobs && db.jobs[j].status == PendingExecution
    ensures Zsets(TryStart(db, j, now).0) && BelongsTo(db, TryStart(db, j, now).0, j)
  {
    StartEffect(db, j, now);
  }

  lemma StartShape(s: State, t: nat, now: int)
    requires CustodyInv(s) && t in s.tokens && s.tokens[t].phase.Claimed? && s.db.wf.status != WfCanceled
    ensures StepShape(s, AfterStart(s, t, now), t, s.tokens[t].job)
  {
    SoleHolder(s, t);
    StartEffect(s.db, s.tokens[t].job, now);
    StartBelongs(s.db, s.tokens[t].job, now);
    assert AfterStart(s, t, now).tokens[t].job == s.tokens[t].job;
  }

  lemma FinishShape(s: State, t: nat, ok: bool)
    requires CustodyInv(s) && t in s.tokens && s.tokens[t].phase.Executing?
    ensures StepShape(s, AfterFinish(s, t, ok), t, s.tokens[t].job)
  {
    SoleHolder(s, t);
    assert AfterFinish(s, t, ok).tokens[t].job == s.tokens[t].job;
  }

  lemma TakeShape(s: State, t: nat)
    requires CustodyInv(s) && t in s.tokens && s.tokens[t].phase.InStream?
    ensures StepShape(s, AfterTake(s, t), t, s.tokens[t].job)
  {
    SoleHolder(s, t);
    assert AfterTake(s, t).tokens[t].job == s.tokens[t].job;
  }

  lemma MarkAbortedShape(s: State, t: nat)
    requires CustodyInv(s) && t in s.tokens && s.tokens[t].phase.MarkingAborted?
    ensures StepShape(s, AfterMarkAborted(s, t), t, s.tokens[t].job)
  {
    SoleHolder(s, t);
  }
}
