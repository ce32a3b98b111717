/** Every step belongs to one job, held by the token that takes the step.  What it may do to
    the other jobs is limited to three side effects; custody follows from that alone. */
module Effects {
  import opened Dag
  import opened Runtime
  import opened Protocol
  import opened Invariants

  /** Job `k` is left alone. */
  predicate Untouched(db: Store, db': Store, k: JobId)
    requires k in db.jobs && k in db'.jobs
  {
    && db'.jobs[k].status == db.jobs[k].status
    && (k in db'.queue <==> k in db.queue)
    && (k in db'.retries <==> k in db.retries)
  }

  /** Job `k` is released by its last dependency, promoted to the queue, or canceled. */
  predicate Affected(db: Store, db': Store, k: JobId)
    requires k in db.jobs && k in db'.jobs
  {
    var a, b := db.jobs[k].status, db'.jobs[k].status;
    && k !in db'.retries
    && (|| (a == Pending && b == Ready && k !in db'.queue)
        || ((a == Pending || a == Ready) && b == Queued && k in db'.queue)
        || (IsWaitingToRun(a) && b == Aborted && k !in db'.queue))
  }

  predicate SideEffect(db: Store, db': Store, k: JobId)
    requires k in db.jobs && k in db'.jobs
  {
    && (Untouched(db, db', k) || Affected(db, db', k))
    && db'.jobs[k].priority == db.jobs[k].priority
    && db'.jobs[k].maxRetries == db.jobs[k].maxRetries
    && db'.jobs[k].retryCount == db.jobs[k].retryCount
    && db'.jobs[k].timeoutSec == db.jobs[k].timeoutSec
    && db'.jobs[k].startTime == db.jobs[k].startTime
  }

  /** The step from `db` to `db'` belongs to job `j`. */
  ghost predicate BelongsTo(db: Store, db': Store, j: JobId) {
    && db'.jobs.Keys == db.jobs.Keys
    && forall k {:trigger SideEffect(db, db', k)} :: k in db.jobs && k != j ==> SideEffect(db, db', k)
  }

  /** Only token `t`, of job `j`, differs between the two token maps. */
  ghost predicate OnlyToken(tokens: map<nat, Token>, tokens': map<nat, Token>, t: nat, j: JobId) {
    && (forall u :: u != t ==> (u in tokens' <==> u in tokens))
    && (forall u :: u != t && u in tokens ==> tokens'[u] == tokens[u] && tokens[u].job != j)
    && (t in tokens ==> tokens[t].job == j)
    && (t in tokens' ==> tokens'[t].job == j)
  }

  lemma CustodyStep(s: State, s': State, t: nat, j: JobId)
    requires Zsets(s.db) && Custody(s)
    requires BelongsTo(s.db, s'.db, j) && OnlyToken(s.tokens, s'.tokens, t, j)
    requires t in s'.tokens ==> TokenFits(s', t)
    requires s.db.wf.status == WfFailed ==> s'.db.wf.status == WfFailed
    ensures Custody(s')
  {
    forall u | u in s'.tokens ensures TokenFits(s', u) {
      if u != t {
        assert TokenFits(s, u);
        assert SideEffect(s.db, s'.db, s.tokens[u].job);
      }
    }
  }

  lemma CoveredStep(s: State, s': State, t: nat, j: JobId)
    requires Covered(s)
    requires BelongsTo(s.db, s'.db, j) && OnlyToken(s.tokens, s'.tokens, t, j)
    requires j in s.db.jobs ==> Placed(s', j)
    ensures Covered(s')
  {
    forall k | k in s'.db.jobs ensures Placed(s', k) {
      if k != j {
        assert Placed(s, k) && SideEffect(s.db, s'.db, k);
        if Held(s.tokens, k) {
          var u :| u in s.tokens && s.tokens[u].job == k;
          assert u in s'.tokens && s'.tokens[u].job == k;
        }
      }
    }
  }

  /** A token in hand is the only one of its job. */
  lemma SoleHolder(s: State, t: nat)
    requires Custody(s) && t in s.tokens
    ensures forall u :: u != t && u in s.tokens ==> s.tokens[u].job != s.tokens[t].job
    ensures TokenFits(s, t)
  {
  }

  /** The local obligations of a step of job `j` taken by token `t`. */
  ghost predicate StepShape(s: State, s': State, t: nat, j: JobId) {
    && j in s.db.jobs && Zsets(s'.db)
    && BelongsTo(s.db, s'.db, j) && OnlyToken(s.tokens, s'.tokens, t, j)
    && (t in s'.tokens ==> TokenFits(s', t))
    && Placed(s', j)
    && (s.db.wf.status == WfFailed ==> s'.db.wf.status == WfFailed)
  }

  lemma StepShapeKeepsCustody(s: State, s': State, t: nat, j: JobId)
    requires Zsets(s.db) && Custody(s) && Covered(s) && StepShape(s, s', t, j)
    ensures Zsets(s'.db) && Custody(s') && Covered(s')
  {
    CustodyStep(s, s', t, j);
    CoveredStep(s, s', t, j);
  }
}
