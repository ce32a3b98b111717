/** Completion counting: `completed_jobs` follows the set of settled jobs, so the total is
    reached once, when every job is terminal. */
module CountProofs {
  import opened Basics
  import opened Dag
  import opened Runtime
  import opened WorkflowScripts
  import opened JobScripts
  import opened Protocol
  import opened Invariants
  import opened Effects
  import opened ScriptSteps

  /** The jobs other than `j` that become terminal: the canceled siblings. */
  ghost function NewlyTerminal(db: Store, db': Store, j: JobId): set<JobId> {
    set k | k in db.jobs && k in db'.jobs && k != j && !IsTerminal(db.jobs[k].status) && IsTerminal(db'.jobs[k].status)
  }

  /** Only the abort record of `j` may appear or disappear. */
  lemma AbortInFlightStep(tokens: map<nat, Token>, tokens': map<nat, Token>, t: nat, j: JobId)
    requires OnlyToken(tokens, tokens', t, j)
    ensures forall k :: k != j ==> (k in AbortInFlight(tokens') <==> k in AbortInFlight(tokens))
    ensures j in AbortInFlight(tokens) <==> t in tokens && ReportsAbort(tokens[t].phase)
    ensures j in AbortInFlight(tokens') <==> t in tokens' && ReportsAbort(tokens'[t].phase)
  {
    forall k | k != j ensures k in AbortInFlight(tokens') <==> k in AbortInFlight(tokens) {
      if k in AbortInFlight(tokens) {
        var u :| u in tokens && ReportsAbort(tokens[u].phase) && tokens[u].job == k;
        assert u in tokens' && tokens'[u] == tokens[u];
      }
      if k in AbortInFlight(tokens') {
        var u :| u in tokens' && ReportsAbort(tokens'[u].phase) && tokens'[u].job == k;
        assert u in tokens && tokens[u] == tokens'[u];
      }
    }
    if t in tokens && ReportsAbort(tokens[t].phase) { assert tokens[t].job in AbortInFlight(tokens); }
    if t in tokens' && ReportsAbort(tokens'[t].phase) { assert tokens'[t].job in AbortInFlight(tokens'); }
  }

  /** A job with an abort record on its way is PENDING_EXECUTION or ABORTED. */
  lemma AborterStatus(s: State, k: JobId)
    requires Custody(s) && k in AbortInFlight(s.tokens)
    ensures k in s.db.jobs && (s.db.jobs[k].status == PendingExecution || s.db.jobs[k].status == Aborted)
  {
    var u :| u in s.tokens && ReportsAbort(s.tokens[u].phase) && s.tokens[u].job == k;
    assert TokenFits(s, u);
  }

  /** Away from `j`, the settled jobs grow by the newly terminal ones. */
  lemma SettledElsewhere(s: State, s': State, t: nat, j: JobId)
    requires Custody(s) && BelongsTo(s.db, s'.db, j) && OnlyToken(s.tokens, s'.tokens, t, j)
    ensures Settled(s') - {j} == (Settled(s) - {j}) + NewlyTerminal(s.db, s'.db, j)
    ensures (Settled(s) - {j}) !! NewlyTerminal(s.db, s'.db, j)
  {
    AbortInFlightStep(s.tokens, s'.tokens, t, j);
    forall k | k in s.db.jobs && k != j
      ensures k in Settled(s') <==> k in Settled(s) || k in NewlyTerminal(s.db, s'.db, j)
    {
      assert SideEffect(s.db, s'.db, k);
      if k in AbortInFlight(s.tokens) { AborterStatus(s, k); }
    }
  }

  predicate SettledHere(s: State, t: nat, j: JobId) {
    && j in s.db.jobs && IsTerminal(s.db.jobs[j].status)
    && !(t in s.tokens && ReportsAbort(s.tokens[t].phase))
  }

  lemma SettledCard(s: State, s': State, t: nat, j: JobId)
    requires Custody(s) && BelongsTo(s.db, s'.db, j) && OnlyToken(s.tokens, s'.tokens, t, j)
    ensures |Settled(s')| == |Settled(s)| + |NewlyTerminal(s.db, s'.db, j)|
                             + (if SettledHere(s', t, j) then 1 else 0) - (if SettledHere(s, t, j) then 1 else 0)
  {
    SettledElsewhere(s, s', t, j);
    AbortInFlightStep(s.tokens, s'.tokens, t, j);
    assert j in Settled(s) <==> SettledHere(s, t, j);
    assert j in Settled(s') <==> SettledHere(s', t, j);
    assert |Settled(s') - {j}| == |Settled(s) - {j}| + |NewlyTerminal(s.db, s'.db, j)|;
  }

  lemma SettledBound(g: Graph, s: State)
    requires Shape(g, s)
    ensures |Settled(s)| <= s.db.wf.total
    ensures |Settled(s)| == s.db.wf.total ==> Settled(s) == g.Keys
  {
    SubsetCard(Settled(s), g.Keys);
  }

  /** The step counts nothing and settles nothing, except that a job may be settled uncounted
      once the workflow is no longer live. */
  ghost predicate CountsNothing(s: State, s': State, t: nat, j: JobId) {
    && NewlyTerminal(s.db, s'.db, j) == {}
    && (SettledHere(s, t, j) ==> SettledHere(s', t, j))
    && (IsLive(s'.db.wf) ==> IsLive(s.db.wf) && (SettledHere(s', t, j) ==> SettledHere(s, t, j)))
    && (s'.db.wf.status == WfCompleted ==> s.db.wf.status == WfCompleted)
    && s'.db.wf.completed == s.db.wf.completed && s'.db.wf.total == s.db.wf.total && s'.signals == s.signals
  }

  /** The step settles `j` and its newly terminal siblings and counts them all. */
  ghost predicate CountsAll(s: State, s': State, t: nat, j: JobId) {
    && !SettledHere(s, t, j) && SettledHere(s', t, j)
    && s'.db.wf.completed == s.db.wf.completed + 1 + |NewlyTerminal(s.db, s'.db, j)|
    && s'.signals == s.signals + (if s'.db.wf.completed == s'.db.wf.total then 1 else 0)
    && (IsLive(s'.db.wf) ==> IsLive(s.db.wf))
    && (s'.db.wf.status == WfCompleted ==> s.db.wf.status == WfCompleted || s'.db.wf.completed == s'.db.wf.total)
  }

  lemma CountedQuiet(s: State, s': State, t: nat, j: JobId)
    requires Custody(s) && Counted(s) && BelongsTo(s.db, s'.db, j) && OnlyToken(s.tokens, s'.tokens, t, j)
    requires CountsNothing(s, s', t, j)
    ensures Counted(s')
    ensures s.db.wf.completed == |Settled(s)| && (SettledHere(s', t, j) ==> SettledHere(s, t, j))
            ==> s'.db.wf.completed == |Settled(s')|
  {
    SettledCard(s, s', t, j);
  }

  lemma CountedMore(g: Graph, s: State, s': State, t: nat, j: JobId)
    requires Shape(g, s') && s'.db.wf.total == s.db.wf.total
    requires Custody(s) && Counted(s) && BelongsTo(s.db, s'.db, j) && OnlyToken(s.tokens, s'.tokens, t, j)
    requires CountsAll(s, s', t, j)
    ensures Counted(s')
    ensures s.db.wf.completed == |Settled(s)| ==> s'.db.wf.completed == |Settled(s')|
  {
    SettledCard(s, s', t, j);
    SettledBound(g, s');
  }

  // ---------------------------------------------------------------- newly terminal jobs

  lemma OneJobNewlyTerminal(db: Store, db': Store, j: JobId)
    requires forall k :: k in db.jobs && k in db'.jobs && k != j ==> db'.jobs[k].status == db.jobs[k].status
    ensures NewlyTerminal(db, db', j) == {}
  {
  }

  lemma PromotingNewlyTerminal(db: Store, db1: Store, j: JobId, slotFree: bool, pick: Option<JobId>)
    requires NewlyTerminal(db, db1, j) == {} && (pick.Some? ==> pick.value in db1.waiting)
    requires db1.jobs.Keys == db.jobs.Keys
    ensures NewlyTerminal(db, Promoting(db1, slotFree, pick).0, j) == {}
  {
    assert NewlyTerminal(db, Promoting(db1, slotFree, pick).0, j) <= NewlyTerminal(db, db1, j);
  }

  lemma SuccessNewlyTerminal(db: Store, j: JobId, slotFree: bool, pick: Option<JobId>)
    requires j in db.jobs && NoDup(SuccessorsOf(db, j)) && IsPop(AfterSuccess(db, j).waiting, pick)
    ensures NewlyTerminal(db, Promoting(AfterSuccess(db, j), slotFree, pick).0, j) == {}
  {
    SuccessPointwise(db, j);
    PromotingNewlyTerminal(db, AfterSuccess(db, j), j, slotFree, pick);
  }

  lemma PromoteRetryNewlyTerminal(db: Store, j: JobId, pick: Option<JobId>)
    requires j in db.jobs && (RetryApplies(db, j) ==> IsPop(RetryToWaiting(db, j).waiting, pick))
    ensures NewlyTerminal(db, PromoteRetry(db, j, pick).0, j) == {}
  {
    if RetryApplies(db, j) {
      OneJobNewlyTerminal(db, RetryToWaiting(db, j), j);
      PromotingNewlyTerminal(db, RetryToWaiting(db, j), j, db.wf.reserved < db.wf.maxConcurrent, pick);
    }
  }

  /** The failure script reports exactly the siblings it makes terminal. */
  lemma FailureNewlyTerminal(db: Store, j: JobId, count: int, ids: seq<JobId>)
    requires j in db.jobs
    ensures var (db', reply) := CompleteFailed(db, j, count, ids);
      NoDup(reply.canceled) && Elems(reply.canceled) == NewlyTerminal(db, db', j)
  {
    var (db', reply) := CompleteFailed(db, j, count, ids);
    FailurePointwise(db, j, count, ids);
    var jobs := MarkFailed(db, j, count).jobs;
    if db.wf.status == WfRunning {
      CancelAllCanceled(Cancel(jobs, db.waiting, db.queue, db.retries, []), j, ids);
      assert forall k :: k != j ==> (Cancelable(jobs, j, k) <==> Cancelable(db.jobs, j, k));
      forall k ensures k in Elems(reply.canceled) <==> k in NewlyTerminal(db, db', j) {
      }
    }
  }

  lemma FailureCompleted(db: Store, j: JobId, count: int, ids: seq<JobId>)
    requires j in db.jobs
    ensures var (db', reply) := CompleteFailed(db, j, count, ids);
      db'.wf.completed == db.wf.completed + 1 + |NewlyTerminal(db, db', j)|
  {
    FailureNewlyTerminal(db, j, count, ids);
    ElemsCard(CompleteFailed(db, j, count, ids).1.canceled);
  }
}
