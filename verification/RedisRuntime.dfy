/** The runtime store as an object that the scripts update in place, command by command.  Each
    script is proved to do what its function in `WorkflowScripts` or `JobScripts` says. */
module RedisRuntime {
  import opened Basics
  import opened Dag
  import opened Runtime
  import opened WorkflowScripts
  import opened JobScripts

  class WorkflowStore {
    var wf: Workflow
    var jobs: map<JobId, Job>
    var successors: map<JobId, seq<JobId>>
    var waiting: Zset
    var queue: Zset
    var retries: Zset

    function Db(): Store
      reads this
    {
      Store(wf, jobs, successors, waiting, queue, retries)
    }

    constructor (db: Store)
      ensures Db() == db
    {
      wf, jobs, successors := db.wf, db.jobs, db.successors;
      waiting, queue, retries := db.waiting, db.queue, db.retries;
    }

    /** ZPOPMAX on the waiting set, then the promotion of what it returned. */
    method PromoteWaiting() returns (promoted: Option<JobId>)
      modifies this
      ensures IsPop(old(waiting), promoted)
      ensures Db() == Promoting(old(Db()), true, promoted).0
    {
      promoted := MaximalMember(waiting);
      if promoted.Some? {
        var p := promoted.value;
        var score := waiting[p];
        waiting := waiting - {p};
        if p in jobs { jobs := jobs[p := jobs[p].(status := Queued)]; }
        queue := queue[p := score];
        wf := wf.(reserved := wf.reserved + 1);
      }
    }

    /** The successor loop of the success script. */
    method ReleaseSuccessors(succs: seq<JobId>) returns (ready: seq<JobId>)
      modifies this`wf, this`jobs, this`waiting
      ensures var r := ReleaseAll(Release(old(jobs), old(waiting), old(wf).pending, []), succs);
        jobs == r.jobs && waiting == r.waiting && wf == old(wf).(pending := r.pending) && ready == r.ready
    {
      ready := [];
      ghost var r0 := Release(jobs, waiting, wf.pending, []);
      for i := 0 to |succs|
        invariant Release(jobs, waiting, wf.pending, ready) == ReleaseAll(r0, succs[..i])
        invariant wf == old(wf).(pending := wf.pending)
      {
        assert succs[..i + 1][..i] == succs[..i];
        var k := succs[i];
        if k in jobs && jobs[k].status == Pending {
          var left := jobs[k].remaining - 1;
          jobs := jobs[k := jobs[k].(remaining := left)];
          if left <= 0 {
            jobs := jobs[k := jobs[k].(remaining := 0, status := Ready)];
            if wf.pending > 0 { wf := wf.(pending := wf.pending - 1); }
            waiting := waiting[k := jobs[k].priority];
            ready := ready + [k];
          }
        }
      }
      assert succs[..|succs|] == succs;
    }

    method CompleteSuccessfulJob(j: JobId, now: int) returns (reply: SuccessReply, ghost pick: Option<JobId>)
      modifies this
      ensures SuccessApplies(old(Db()), j, now) ==> IsPop(AfterSuccess(old(Db()), j).waiting, pick)
      ensures (Db(), reply) == CompleteSuccessful(old(Db()), j, now, pick)
    {
      pick := None;
      if j !in jobs { return NotApplied, pick; }
      if jobs[j].status == Completed { return Applied(false, None, []), pick; }
      if wf.status != WfRunning { return NotApplied, pick; }
      if WorkflowExpired(wf, now) {
        wf := wf.(status := WfFailed);
        return TimedOut, pick;
      }
      jobs := jobs[j := jobs[j].(status := Completed)];
      var succs := if j in successors then successors[j] else [];
      successors := successors - {j};
      var ready := ReleaseSuccessors(succs);
      wf := wf.(completed := wf.completed + 1);
      wf := wf.(reserved := if wf.reserved > 0 then wf.reserved - 1 else wf.reserved);
      var completed := wf.total > 0 && wf.completed == wf.total;
      if completed { wf := wf.(status := WfCompleted); }
      assert Db() == AfterSuccess(old(Db()), j);
      var promoted := None;
      if !completed && wf.reserved < wf.maxConcurrent {
        promoted := PromoteWaiting();
        pick := promoted;
      } else {
        pick := PopExists(waiting);
      }
      reply := Applied(completed, promoted, ready);
    }

    /** The sibling loop of the failure script. */
    method CancelSiblings(failed: JobId, ids: seq<JobId>) returns (canceled: seq<JobId>)
      modifies this`jobs, this`waiting, this`queue, this`retries
      ensures Cancel(jobs, waiting, queue, retries, canceled)
           == CancelAll(Cancel(old(jobs), old(waiting), old(queue), old(retries), []), failed, ids)
    {
      canceled := [];
      ghost var c0 := Cancel(jobs, waiting, queue, retries, []);
      for i := 0 to |ids|
        invariant Cancel(jobs, waiting, queue, retries, canceled) == CancelAll(c0, failed, ids[..i])
      {
        assert ids[..i + 1][..i] == ids[..i];
        var k := ids[i];
        if k != failed && k in jobs {
          var st := jobs[k].status;
          if st == Pending || st == Ready || st == Queued || st == RetryDelay {
            jobs := jobs[k := jobs[k].(status := Aborted)];
            waiting := waiting - {k};
            if st == Queued { queue := queue - {k}; }
            if st == RetryDelay { retries := retries - {k}; }
            canceled := canceled + [k];
          }
        }
      }
      assert ids[..|ids|] == ids;
    }

    method CompleteFailedJob(j: JobId, retryCount: int, ids: seq<JobId>) returns (reply: FailureReply)
      requires j in jobs
      modifies this
      ensures (Db(), reply) == CompleteFailed(old(Db()), j, retryCount, ids)
    {
      jobs := jobs[j := jobs[j].(status := Failed, retryCount := retryCount)];
      var canceled := [];
      var fails := wf.status == WfRunning;
      if fails {
        wf := wf.(status := WfFailed, reserved := if wf.reserved > 0 then wf.reserved - 1 else wf.reserved);
        canceled := CancelSiblings(j, ids);
      }
      wf := wf.(completed := wf.completed + 1 + |canceled|);
      wf := wf.(failed := wf.failed + 1);
      reply := FailureReply(fails, wf.total > 0 && wf.completed == wf.total, canceled);
    }

    method ClaimJob(j: JobId) returns (ok: bool)
      modifies this`jobs
      ensures (Db(), ok) == Claim(old(Db()), j)
    {
      if j !in jobs { return false; }
      if jobs[j].status != Ready && jobs[j].status != Queued { return false; }
      jobs := jobs[j := jobs[j].(status := PendingExecution)];
      return true;
    }

    method TrySetJobToRunning(j: JobId, now: int) returns (r: StartResult)
      modifies this`jobs, this`wf
      ensures (Db(), r) == TryStart(old(Db()), j, now)
    {
      if j in jobs && jobs[j].status == Aborted { return AlreadyCanceled; }
      if j !in jobs || jobs[j].status != PendingExecution {
        wf := wf.(status := WfFailed);
        return ViolationJobStatus;
      }
      if wf.status == WfReady {
        if wf.startTime.Some? {
          jobs := jobs[j := jobs[j].(status := Aborted)];
          wf := wf.(status := WfFailed);
          return ViolationWorkflowTime;
        }
        wf := wf.(status := WfRunning, startTime := Some(now));
        jobs := jobs[j := jobs[j].(status := Running, startTime := Some(now))];
        return FirstToStart;
      }
      if wf.status == WfRunning {
        jobs := jobs[j := jobs[j].(status := Running, startTime := Some(now))];
        return Started;
      }
      jobs := jobs[j := jobs[j].(status := Aborted)];
      if wf.status == WfFailed || wf.status == WfCanceled { return CanceledByWorkflowState; }
      wf := wf.(status := WfFailed);
      return ViolationWorkflowStatus;
    }

    method ScheduleJobRetry(j: JobId, retryCount: int, retryAt: int)
      returns (promoted: Option<JobId>, ghost pick: Option<JobId>)
      requires j in jobs
      modifies this
      ensures IsPop(old(waiting), pick)
      ensures (Db(), promoted) == ScheduleRetry(old(Db()), j, retryCount, retryAt, pick)
    {
      pick := PopExists(waiting);
      jobs := jobs[j := jobs[j].(status := RetryDelay, retryCount := retryCount, startTime := None)];
      retries := retries[j := retryAt];
      wf := wf.(reserved := if wf.reserved > 0 then wf.reserved - 1 else wf.reserved);
      if wf.status != WfRunning { return None, pick; }
      if wf.reserved >= wf.maxConcurrent { return None, pick; }
      promoted := PromoteWaiting();
      pick := promoted;
    }

    /** The entry with the earliest due time, if it is due, leaves the delay set. */
    method DequeueDueRetry(now: int) returns (due: Option<JobId>)
      modifies this`retries
      ensures match due
        case None => retries == old(retries) && forall k :: k in retries ==> now < retries[k]
        case Some(j) => IsDue(old(retries), j, now) && retries == old(retries) - {j}
    {
      due := MinimalMember(retries);
      if due.Some? {
        if retries[due.value] <= now {
          retries := retries - {due.value};
        } else {
          due := None;
        }
      }
    }

    method PromoteRetryJob(j: JobId) returns (promoted: Option<JobId>, ghost pick: Option<JobId>)
      modifies this
      ensures RetryApplies(old(Db()), j) ==> IsPop(RetryToWaiting(old(Db()), j).waiting, pick)
      ensures (Db(), promoted) == PromoteRetry(old(Db()), j, pick)
    {
      pick := None;
      if j !in jobs { return None, pick; }
      if wf.status != WfRunning {
        jobs := jobs[j := jobs[j].(status := Aborted)];
        return None, pick;
      }
      if jobs[j].status != RetryDelay && jobs[j].status != Ready { return None, pick; }
      pick := PopExists(RetryToWaiting(Db(), j).waiting);
      if wf.reserved < wf.maxConcurrent && waiting == map[] {
        jobs := jobs[j := jobs[j].(status := Queued)];
        queue := queue[j := jobs[j].priority];
        wf := wf.(reserved := wf.reserved + 1);
        return Some(j), pick;
      }
      jobs := jobs[j := jobs[j].(status := Ready)];
      waiting := waiting[j := jobs[j].priority];
      if wf.reserved >= wf.maxConcurrent { return None, pick; }
      promoted := PromoteWaiting();
      pick := promoted;
    }

    /** BZPOPMAX on the execution queue. */
    method PopForExecution() returns (popped: Option<JobId>)
      modifies this`queue
      ensures IsPop(old(queue), popped)
      ensures queue == if popped.Some? then old(queue) - {popped.value} else old(queue)
    {
      popped := MaximalMember(queue);
      if popped.Some? { queue := queue - {popped.value}; }
    }
  }

  // ---------------------------------------------------------------- what Redis does for a sorted set

  method MaximalMember(z: Zset) returns (pick: Option<JobId>)
    ensures IsPop(z, pick)
  {
    if z == map[] { return None; }
    var p :| p in z;
    var rest := z.Keys - {p};
    while rest != {}
      invariant p in z && rest <= z.Keys
      invariant forall q :: q in z && q !in rest ==> z[q] <= z[p]
      decreases rest
    {
      var q :| q in rest;
      rest := rest - {q};
      if z[p] < z[q] { p := q; }
    }
    return Some(p);
  }

  method MinimalMember(z: Zset) returns (pick: Option<JobId>)
    ensures match pick
      case None => z == map[]
      case Some(p) => p in z && forall q :: q in z ==> z[p] <= z[q]
  {
    var negated := map k | k in z :: -z[k];
    pick := MaximalMember(negated);
    if pick.Some? {
      forall q | q in z ensures z[pick.value] <= z[q] {
        assert negated[q] <= negated[pick.value];
      }
    } else {
      assert z.Keys == negated.Keys;
    }
  }
}
