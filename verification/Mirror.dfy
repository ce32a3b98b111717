/** The durable job table mirrors the job statuses of the Redis runtime.  The handlers update
    it only from the ids a script returns; that is enough after every script but one. */
module Mirror {
  import opened Basics
  import opened Dag
  import opened Runtime
  import opened WorkflowScripts
  import opened JobScripts
  import opened Invariants
  import opened ScriptSteps

  type Rows = map<JobId, JobStatus>

  /** The table has no PENDING_EXECUTION: a claimed job still shows as QUEUED. */
  function View(st: JobStatus): JobStatus {
    if st == PendingExecution then Queued else st
  }

  function Viewed(jobs: map<JobId, Job>): Rows {
    map j | j in jobs :: View(jobs[j].status)
  }

  // ---------------------------------------------------------------- the table

  function SetAll(rows: Rows, ids: seq<JobId>, st: JobStatus): Rows {
    map j | j in rows :: if j in ids then st else rows[j]
  }

  predicate AllPresent(rows: Rows, ids: seq<JobId>) {
    forall j :: j in ids ==> j in rows
  }

  /** The statuses the table accepts. */
  predicate IsStorable(st: JobStatus) {
    st != PendingExecution && st != Canceled
  }

  class JobTable {
    var rows: Rows

    constructor (jobs: Rows)
      ensures rows == jobs
    {
      rows := jobs;
    }

    method UpdateStatus(j: JobId, st: JobStatus) returns (ok: bool)
      modifies this
      ensures ok == (j in old(rows) && IsStorable(st))
      ensures rows == if IsStorable(st) then SetAll(old(rows), [j], st) else old(rows)
    {
      ok := j in rows && IsStorable(st);
      if ok { rows := rows[j := st]; }
    }

    /** One transaction: READY rows first, then QUEUED ones; a missing row rolls all of it back. */
    method UpdateReadyJobs(queued: seq<JobId>, ready: seq<JobId>) returns (ok: bool)
      modifies this
      ensures ok == (AllPresent(old(rows), ready) && AllPresent(old(rows), queued))
      ensures rows == if ok then SetAll(SetAll(old(rows), ready, Ready), queued, Queued) else old(rows)
    {
      var before := rows;
      ok := UpdateEach(ready, Ready);
      if ok {
        ok := UpdateEach(queued, Queued);
      }
      if !ok { rows := before; }
    }

    method UpdateEach(ids: seq<JobId>, st: JobStatus) returns (ok: bool)
      modifies this
      ensures ok == AllPresent(old(rows), ids)
      ensures ok ==> rows == SetAll(old(rows), ids, st)
    {
      for i := 0 to |ids|
        invariant AllPresent(old(rows), ids[..i])
        invariant rows == SetAll(old(rows), ids[..i], st)
      {
        assert ids[..i + 1] == ids[..i] + [ids[i]];
        if ids[i] !in rows {
          assert ids[i] in ids;
          return false;
        }
        rows := rows[ids[i] := st];
      }
      assert ids[..|ids|] == ids;
      return true;
    }

    /** What the handler writes once the success script has taken effect. */
    method RecordSuccess(j: JobId, promoted: Option<JobId>, ready: seq<JobId>) returns (ok: bool)
      modifies this
      ensures ok == (j in old(rows) && AllPresent(old(rows), Without(ready, promoted)) && AllPresent(old(rows), Listed(promoted)))
      ensures ok ==> rows == SuccessRows(old(rows), j, promoted, ready)
    {
      ok := UpdateStatus(j, Completed);
      if ok && (promoted.Some? || ready != []) {
        ok := UpdateReadyJobs(Listed(promoted), Without(ready, promoted));
      }
    }

    /** What the handler writes after the failure script. */
    method RecordFailure(j: JobId, terminal: JobStatus, canceled: seq<JobId>) returns (ok: bool)
      requires terminal == Failed || terminal == Aborted
      modifies this
      ensures ok == (j in old(rows) && AllPresent(old(rows), canceled))
      ensures rows == SetAll(SetAll(old(rows), [j], terminal), canceled, Aborted)
    {
      ok := UpdateStatus(j, terminal);
      var rows0 := rows;
      for i := 0 to |canceled|
        invariant rows == SetAll(rows0, canceled[..i], Aborted)
        invariant ok == (j in old(rows) && AllPresent(old(rows), canceled[..i]))
      {
        assert canceled[..i + 1] == canceled[..i] + [canceled[i]];
        var updated := UpdateStatus(canceled[i], Aborted);
        ok := ok && updated;
      }
      assert canceled[..|canceled|] == canceled;
    }

    /** What the retry handler writes after the promotion script. */
    method RecordPromotion(j: JobId, promoted: Option<JobId>) returns (ok: bool)
      modifies this
      ensures ok == (AllPresent(old(rows), [j]) && AllPresent(old(rows), Listed(promoted)))
      ensures ok ==> rows == PromotionRows(old(rows), j, promoted)
    {
      var ready := if promoted == Some(j) then [] else [j];
      ok := UpdateReadyJobs(Listed(promoted), ready);
    }
  }

  function Listed(promoted: Option<JobId>): seq<JobId> {
    if promoted.Some? then [promoted.value] else []
  }

  /** The script's READY list without the job that was promoted at once. */
  function Without(ready: seq<JobId>, promoted: Option<JobId>): seq<JobId> {
    if ready == [] then []
    else (if promoted == Some(ready[0]) then [] else [ready[0]]) + Without(ready[1..], promoted)
  }

  lemma {:induction false} WithoutElements(ready: seq<JobId>, promoted: Option<JobId>, k: JobId)
    ensures k in Without(ready, promoted) <==> k in ready && promoted != Some(k)
  {
    if ready != [] {
      WithoutElements(ready[1..], promoted, k);
      assert ready == [ready[0]] + ready[1..];
    }
  }

  function SuccessRows(rows: Rows, j: JobId, promoted: Option<JobId>, ready: seq<JobId>): Rows {
    SetAll(SetAll(SetAll(rows, [j], Completed), Without(ready, promoted), Ready), Listed(promoted), Queued)
  }

  function PromotionRows(rows: Rows, j: JobId, promoted: Option<JobId>): Rows {
    SetAll(SetAll(rows, if promoted == Some(j) then [] else [j], Ready), Listed(promoted), Queued)
  }

  // ---------------------------------------------------------------- the returned ids suffice

  lemma PromotingDelta(db: Store, slotFree: bool, pick: Option<JobId>)
    requires pick.Some? ==> pick.value in db.waiting && pick.value in db.jobs
    ensures var (db', promoted) := Promoting(db, slotFree, pick);
      Viewed(db'.jobs) == SetAll(Viewed(db.jobs), Listed(promoted), Queued)
  {
  }

  /** The successor loop reports exactly the jobs it turned READY. */
  lemma ReleaseDelta(db: Store, j: JobId)
    requires j in db.jobs && NoDup(SuccessorsOf(db, j))
    ensures Viewed(AfterSuccess(db, j).jobs) ==
      SetAll(SetAll(Viewed(db.jobs), [j], Completed), SuccessRelease(db, j).ready, Ready)
  {
    SuccessPointwise(db, j);
    ReleaseAllReady(Release(db.jobs[j := db.jobs[j].(status := Completed)], db.waiting, db.wf.pending, []), SuccessorsOf(db, j));
  }

  lemma SetAllWithout(rows: Rows, ready: seq<JobId>, promoted: Option<JobId>)
    ensures SetAll(SetAll(rows, Without(ready, promoted), Ready), Listed(promoted), Queued)
         == SetAll(SetAll(rows, ready, Ready), Listed(promoted), Queued)
  {
    forall k ensures k in Without(ready, promoted) <==> k in ready && promoted != Some(k) {
      WithoutElements(ready, promoted, k);
    }
  }

  /** After the success script, the mirror is up to date again from the ids returned. */
  lemma SuccessDelta(db: Store, j: JobId, now: int, pick: Option<JobId>)
    requires Zsets(db) && SuccessApplies(db, j, now) && db.jobs[j].status == Running && NoDup(SuccessorsOf(db, j))
    requires IsPop(AfterSuccess(db, j).waiting, pick)
    ensures var (db', reply) := CompleteSuccessful(db, j, now, pick);
      reply.Applied? && Viewed(db'.jobs) == SuccessRows(Viewed(db.jobs), j, reply.promoted, reply.ready)
  {
    var db1 := AfterSuccess(db, j);
    var promoted := Promoting(db1, SuccessPromotes(db), pick).1;
    SuccessZsets(db, j);
    ReleaseDelta(db, j);
    PromotingDelta(db1, SuccessPromotes(db), pick);
    SetAllWithout(SetAll(Viewed(db.jobs), [j], Completed), SuccessRelease(db, j).ready, promoted);
  }

  lemma CancelDelta(c: Cancel, failed: JobId, ids: seq<JobId>)
    requires c.canceled == []
    ensures Viewed(CancelAll(c, failed, ids).jobs) == SetAll(Viewed(c.jobs), CancelAll(c, failed, ids).canceled, Aborted)
  {
    CancelAllPointwise(c, failed, ids);
    CancelAllCanceled(c, failed, ids);
  }

  /** After the failure script likewise, from the canceled ids. */
  lemma FailureDelta(db: Store, j: JobId, retryCount: int, ids: seq<JobId>)
    requires j in db.jobs
    ensures var (db', reply) := CompleteFailed(db, j, retryCount, ids);
      Viewed(db'.jobs) == SetAll(SetAll(Viewed(db.jobs), [j], Failed), reply.canceled, Aborted)
  {
    var jobs := MarkFailed(db, j, retryCount).jobs;
    assert Viewed(jobs) == SetAll(Viewed(db.jobs), [j], Failed);
    CancelDelta(Cancel(jobs, db.waiting, db.queue, db.retries, []), j, ids);
  }

  lemma FailureSparesItsJob(db: Store, j: JobId, retryCount: int, ids: seq<JobId>)
    requires j in db.jobs
    ensures j !in CompleteFailed(db, j, retryCount, ids).1.canceled
  {
    CancelAllCanceled(Cancel(MarkFailed(db, j, retryCount).jobs, db.waiting, db.queue, db.retries, []), j, ids);
  }

  /** For an ABORTED record the handler writes ABORTED into both stores once the script is done. */
  lemma AbortDelta(db: Store, j: JobId, retryCount: int, ids: seq<JobId>)
    requires j in db.jobs
    ensures var (db', reply) := CompleteFailed(db, j, retryCount, ids);
      && j in db'.jobs
      && Viewed(db'.jobs[j := db'.jobs[j].(status := Aborted)])
         == SetAll(SetAll(Viewed(db.jobs), [j], Aborted), reply.canceled, Aborted)
  {
    FailureDelta(db, j, retryCount, ids);
    FailureSparesItsJob(db, j, retryCount, ids);
    AbortedRow(Viewed(db.jobs), CompleteFailed(db, j, retryCount, ids).0.jobs, j, CompleteFailed(db, j, retryCount, ids).1.canceled);
  }

  lemma AbortedRow(rows: Rows, jobs: map<JobId, Job>, j: JobId, canceled: seq<JobId>)
    requires j in rows && j !in canceled && Viewed(jobs) == SetAll(SetAll(rows, [j], Failed), canceled, Aborted)
    ensures j in jobs
    ensures Viewed(jobs[j := jobs[j].(status := Aborted)]) == SetAll(SetAll(rows, [j], Aborted), canceled, Aborted)
  {
    assert j in Viewed(jobs);
    var jobs' := jobs[j := jobs[j].(status := Aborted)];
    assert jobs.Keys == Viewed(jobs).Keys == rows.Keys;
    forall k | k in rows ensures Viewed(jobs')[k] == SetAll(SetAll(rows, [j], Aborted), canceled, Aborted)[k] {
      assert Viewed(jobs)[k] == SetAll(SetAll(rows, [j], Failed), canceled, Aborted)[k];
    }
  }

  /** After a retry is scheduled, from the promoted id. */
  lemma ScheduleRetryDelta(db: Store, j: JobId, retryCount: int, retryAt: int, pick: Option<JobId>)
    requires Zsets(db) && j in db.jobs && db.jobs[j].status == Running && IsPop(db.waiting, pick)
    ensures var (db', promoted) := ScheduleRetry(db, j, retryCount, retryAt, pick);
      Viewed(db'.jobs) == SetAll(SetAll(Viewed(db.jobs), [j], RetryDelay), Listed(promoted), Queued)
  {
    var db1 := ParkRetry(db, j, retryCount, retryAt);
    assert Viewed(db1.jobs) == SetAll(Viewed(db.jobs), [j], RetryDelay);
    PromotingDelta(db1, RetryPromotes(db), pick);
  }

  /** After a retry promotion the mirror is right exactly when the script had something to
      promote: otherwise the retry handler records READY for a job that is not. */
  lemma PromotionDeltaIffApplied(db: Store, j: JobId, pick: Option<JobId>)
    requires Zsets(db) && j in db.jobs
    requires RetryApplies(db, j) ==> IsPop(RetryToWaiting(db, j).waiting, pick)
    ensures var (db', promoted) := PromoteRetry(db, j, pick);
      Viewed(db'.jobs) == PromotionRows(Viewed(db.jobs), j, promoted) <==> RetryApplies(db, j)
  {
    if RetryApplies(db, j) {
      AppliedPromotionDelta(db, j, pick);
    } else {
      var (db', promoted) := PromoteRetry(db, j, pick);
      assert Viewed(db'.jobs)[j] != Ready && PromotionRows(Viewed(db.jobs), j, promoted)[j] == Ready;
    }
  }

  lemma AppliedPromotionDelta(db: Store, j: JobId, pick: Option<JobId>)
    requires Zsets(db) && RetryApplies(db, j) && IsPop(RetryToWaiting(db, j).waiting, pick)
    ensures var (db', promoted) := PromoteRetry(db, j, pick);
      Viewed(db'.jobs) == PromotionRows(Viewed(db.jobs), j, promoted)
  {
    if db.wf.reserved < db.wf.maxConcurrent && db.waiting == map[] {
      assert Viewed(RetryToQueue(db, j).jobs) == SetAll(Viewed(db.jobs), [j], Queued);
    } else {
      var db1 := RetryToWaiting(db, j);
      var promoted := Promoting(db1, db.wf.reserved < db.wf.maxConcurrent, pick).1;
      assert Viewed(db1.jobs) == SetAll(Viewed(db.jobs), [j], Ready);
      PromotingDelta(db1, db.wf.reserved < db.wf.maxConcurrent, pick);
      PromotedAtOnce(Viewed(db.jobs), j, promoted);
    }
  }

  lemma PromotedAtOnce(rows: Rows, j: JobId, promoted: Option<JobId>)
    ensures SetAll(SetAll(rows, [j], Ready), Listed(promoted), Queued) == PromotionRows(rows, j, promoted)
  {
  }
}
