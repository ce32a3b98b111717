/** What the components write to the durable job table after each script, and what those writes
    say: a job settles exactly when the completion handler is about to write its final status. */
module MirrorWrites {
  import opened Basics
  import opened Dag
  import opened Runtime
  import opened WorkflowScripts
  import opened JobScripts
  import opened Protocol
  import opened Invariants
  import opened Effects
  import opened TokenSteps
  import opened ScriptSteps
  import opened DependencyProofs
  import opened CountProofs
  import opened Preservation
  import opened LedgerProofs
  import opened Mirror

  datatype Component = CompletionHandler | RetryHandler | Worker

  datatype Write = Write(from: Component, job: JobId, status: JobStatus)

  ghost function WritesOf(from: Component, ids: seq<JobId>, st: JobStatus): set<Write> {
    set j | j in ids :: Write(from, j, st)
  }

  ghost function AnswerWrites(j: JobId, reply: SuccessReply): set<Write> {
    if reply.Applied? then
      WritesOf(CompletionHandler, [j], Completed)
      + WritesOf(CompletionHandler, Without(reply.ready, reply.promoted), Ready)
      + WritesOf(CompletionHandler, Listed(reply.promoted), Queued)
    else {}
  }

  ghost function ParkWrites(j: JobId, promoted: Option<JobId>): set<Write> {
    WritesOf(CompletionHandler, [j], RetryDelay) + WritesOf(CompletionHandler, Listed(promoted), Queued)
  }

  ghost function TerminalWrites(j: JobId, terminal: JobStatus, canceled: seq<JobId>): set<Write> {
    WritesOf(CompletionHandler, [j], terminal) + WritesOf(CompletionHandler, canceled, Aborted)
  }

  ghost function FailureWrites(s: State, t: nat, now: int, retryAt: int, pick: Option<JobId>): set<Write>
    requires Enabled(s, HandleFailure(t, now, retryAt, pick))
  {
    var j, o := s.tokens[t].job, s.tokens[t].phase.outcome;
    var count := RetryCountAfter(s.db.jobs[j], o);
    if TakesRetry(s, t, now) then ParkWrites(j, ScheduleRetry(s.db, j, count, retryAt, pick).1)
    else TerminalWrites(j, if o.AbortedRun? then Aborted else Failed, CompleteFailed(s.db, j, count, s.roster).1.canceled)
  }

  ghost function PromotionWrites(j: JobId, promoted: Option<JobId>): set<Write> {
    WritesOf(RetryHandler, if promoted == Some(j) then [] else [j], Ready) + WritesOf(RetryHandler, Listed(promoted), Queued)
  }

  ghost function StartWrites(j: JobId, r: StartResult): set<Write> {
    if HasStarted(r) then WritesOf(Worker, [j], Running) else {}
  }

  /** What the component that takes a step has to write to the table afterwards. */
  ghost function StepWrites(s: State, step: Step): set<Write>
    requires Enabled(s, step)
  {
    match step
    case StartJob(t, now) => StartWrites(s.tokens[t].job, TryStart(s.db, s.tokens[t].job, now).1)
    case HandleSuccess(t, now, pick) => AnswerWrites(s.tokens[t].job, CompleteSuccessful(s.db, s.tokens[t].job, now, pick).1)
    case HandleFailure(t, now, retryAt, pick) => FailureWrites(s, t, now, retryAt, pick)
    case HandleRetry(t, pick) => PromotionWrites(s.tokens[t].job, PromoteRetry(s.db, s.tokens[t].job, pick).1)
    case _ => {}
  }

  // ---------------------------------------------------------------- writes and table methods

  /** The rows after all of `ws`, in whatever order: every write is there and nothing else changed. */
  ghost predicate Records(rows: Rows, ws: set<Write>, rows': Rows) {
    && rows'.Keys == rows.Keys
    && (forall x :: x in ws && x.job in rows ==> rows'[x.job] == x.status)
    && (forall j :: j in rows && (forall x :: x in ws ==> x.job != j) ==> rows'[j] == rows[j])
  }

  lemma InWrites(from: Component, ids: seq<JobId>, st: JobStatus, rows: Rows)
    ensures Records(rows, WritesOf(from, ids, st), SetAll(rows, ids, st))
  {
    forall j | j in rows && j in ids ensures Write(from, j, st) in WritesOf(from, ids, st) {
    }
  }

  /** Rounds of writes to different rows. */
  lemma RecordsRounds(rows: Rows, a: set<Write>, rows1: Rows, b: set<Write>, rows2: Rows)
    requires Records(rows, a, rows1) && Records(rows1, b, rows2)
    requires forall x, y :: x in a && y in b ==> x.job != y.job
    ensures Records(rows, a + b, rows2)
  {
    forall x | x in a + b && x.job in rows ensures rows2[x.job] == x.status {
      if x in a { assert forall y :: y in b ==> y.job != x.job; }
    }
    forall j | j in rows && (forall x :: x in a + b ==> x.job != j) ensures rows2[j] == rows[j] {
      assert forall x :: x in a ==> x in a + b;
      assert forall x :: x in b ==> x in a + b;
    }
  }

  /** What `RecordSuccess` leaves is what the writes of the step say. */
  lemma SuccessRecorded(rows: Rows, j: JobId, reply: SuccessReply)
    requires reply.Applied? && j !in reply.ready && reply.promoted != Some(j)
    ensures Records(rows, AnswerWrites(j, reply), SuccessRows(rows, j, reply.promoted, reply.ready))
  {
    var ready, queued := Without(reply.ready, reply.promoted), Listed(reply.promoted);
    forall k ensures k in ready <==> k in reply.ready && reply.promoted != Some(k) {
      WithoutElements(reply.ready, reply.promoted, k);
    }
    var rows1 := SetAll(rows, [j], Completed);
    var rows2 := SetAll(rows1, ready, Ready);
    InWrites(CompletionHandler, [j], Completed, rows);
    InWrites(CompletionHandler, ready, Ready, rows1);
    InWrites(CompletionHandler, queued, Queued, rows2);
    var a, b := WritesOf(CompletionHandler, [j], Completed), WritesOf(CompletionHandler, ready, Ready);
    RecordsRounds(rows, a, rows1, b, rows2);
    RecordsRounds(rows, a + b, rows2, WritesOf(CompletionHandler, queued, Queued), SetAll(rows2, queued, Queued));
  }

  /** Likewise `RecordFailure`. */
  lemma FailureRecorded(rows: Rows, j: JobId, terminal: JobStatus, canceled: seq<JobId>)
    requires j !in canceled
    ensures Records(rows, TerminalWrites(j, terminal, canceled), SetAll(SetAll(rows, [j], terminal), canceled, Aborted))
  {
    InWrites(CompletionHandler, [j], terminal, rows);
    InWrites(CompletionHandler, canceled, Aborted, SetAll(rows, [j], terminal));
    RecordsRounds(rows, WritesOf(CompletionHandler, [j], terminal), SetAll(rows, [j], terminal),
                  WritesOf(CompletionHandler, canceled, Aborted), SetAll(SetAll(rows, [j], terminal), canceled, Aborted));
  }

  /** Likewise `RecordPromotion`. */
  lemma PromotionRecorded(rows: Rows, j: JobId, promoted: Option<JobId>)
    ensures Records(rows, PromotionWrites(j, promoted), PromotionRows(rows, j, promoted))
  {
    var ready := if promoted == Some(j) then [] else [j];
    InWrites(RetryHandler, ready, Ready, rows);
    InWrites(RetryHandler, Listed(promoted), Queued, SetAll(rows, ready, Ready));
    RecordsRounds(rows, WritesOf(RetryHandler, ready, Ready), SetAll(rows, ready, Ready),
                  WritesOf(RetryHandler, Listed(promoted), Queued), PromotionRows(rows, j, promoted));
  }

  // ---------------------------------------------------------------- final statuses

  ghost predicate IsMarking(tokens: map<nat, Token>, j: JobId) {
    exists t :: t in tokens && tokens[t].phase.MarkingAborted? && tokens[t].job == j
  }

  /** The status a settled job ends with: the ABORTED that its handler is about to write to Redis,
      else the one it has. */
  ghost function Final(s: State, j: JobId): JobStatus
    requires j in s.db.jobs
  {
    if IsMarking(s.tokens, j) then Aborted else s.db.jobs[j].status
  }

  lemma MarkingOwn(tokens: map<nat, Token>, tokens': map<nat, Token>, t: nat, j: JobId)
    requires OnlyToken(tokens, tokens', t, j)
    ensures IsMarking(tokens, j) <==> t in tokens && tokens[t].phase.MarkingAborted?
    ensures IsMarking(tokens', j) <==> t in tokens' && tokens'[t].phase.MarkingAborted?
  {
    if t in tokens && tokens[t].phase.MarkingAborted? { assert tokens[t].job == j; }
    if t in tokens' && tokens'[t].phase.MarkingAborted? { assert tokens'[t].job == j; }
  }

  lemma MarkingElsewhere(tokens: map<nat, Token>, tokens': map<nat, Token>, t: nat, j: JobId, k: JobId)
    requires OnlyToken(tokens, tokens', t, j) && k != j
    ensures IsMarking(tokens', k) <==> IsMarking(tokens, k)
  {
    if IsMarking(tokens, k) {
      var u :| u in tokens && tokens[u].phase.MarkingAborted? && tokens[u].job == k;
      assert u in tokens' && tokens'[u] == tokens[u];
    }
    if IsMarking(tokens', k) {
      var u :| u in tokens' && tokens'[u].phase.MarkingAborted? && tokens'[u].job == k;
      assert u in tokens && tokens[u] == tokens'[u];
    }
  }

  lemma SettledOwn(s: State, s': State, t: nat, j: JobId)
    requires OnlyToken(s.tokens, s'.tokens, t, j)
    ensures j in Settled(s) <==> SettledHere(s, t, j)
    ensures j in Settled(s') <==> SettledHere(s', t, j)
  {
    AbortInFlightStep(s.tokens, s'.tokens, t, j);
  }

  /** A job marked ABORTED is FAILED meanwhile. */
  lemma MarkedIsFailed(s: State, k: JobId)
    requires Custody(s) && IsMarking(s.tokens, k)
    ensures k in s.db.jobs && s.db.jobs[k].status == Failed
  {
    var u :| u in s.tokens && s.tokens[u].phase.MarkingAborted? && s.tokens[u].job == k;
    assert TokenFits(s, u);
  }

  /** What a step does to the settled jobs it does not belong to: they stay as they are, and those
      that settle were waiting to run and are canceled. */
  lemma OthersSettle(s: State, s': State, t: nat, j: JobId, k: JobId)
    requires Custody(s) && StepShape(s, s', t, j) && k in s.db.jobs && k != j
    ensures k in s'.db.jobs
    ensures k in Settled(s') <==> k in Settled(s) || k in NewlyTerminal(s.db, s'.db, j)
    ensures k in Settled(s) ==> Final(s', k) == Final(s, k)
    ensures k in NewlyTerminal(s.db, s'.db, j) ==> k !in Settled(s) && Final(s', k) == Aborted
  {
    SettledElsewhere(s, s', t, j);
    MarkingElsewhere(s.tokens, s'.tokens, t, j, k);
    assert SideEffect(s.db, s'.db, k);
    if IsMarking(s.tokens, k) { MarkedIsFailed(s, k); }
  }

  // ---------------------------------------------------------------- settled jobs stay settled

  /** The token that takes the step cannot unsettle its own job, nor change how it ends. */
  lemma OwnStaysSettled(s: State, step: Step)
    requires Enabled(s, step) && Custody(s) && Zsets(s.db) && StepShape(s, Apply(s, step), step.tok, StepJob(s, step))
    requires StepJob(s, step) in Settled(s)
    ensures StepJob(s, step) in Settled(Apply(s, step)) && Final(Apply(s, step), StepJob(s, step)) == Final(s, StepJob(s, step))
  {
    var s', t, j := Apply(s, step), step.tok, StepJob(s, step);
    SettledOwn(s, s', t, j);
    MarkingOwn(s.tokens, s'.tokens, t, j);
    OwnSettledStep(s, step);
  }

  lemma OwnSettledStep(s: State, step: Step)
    requires Enabled(s, step) && Custody(s) && Zsets(s.db) && SettledHere(s, step.tok, StepJob(s, step))
    ensures step.ClaimJob? || step.MarkAborted? || step.HandleRetry?
    ensures SettledHere(Apply(s, step), step.tok, StepJob(s, step))
    ensures step.MarkAborted? ==> s.db.jobs[StepJob(s, step)].status == Failed && Apply(s, step).db.jobs[StepJob(s, step)].status == Aborted
    ensures !step.MarkAborted? ==> Apply(s, step).db.jobs[StepJob(s, step)].status == s.db.jobs[StepJob(s, step)].status
    ensures step.MarkAborted? <==> step.tok in s.tokens && s.tokens[step.tok].phase.MarkingAborted?
    ensures step.tok !in Apply(s, step).tokens
  {
    if !step.Pop? && !step.PopRetry? { SoleHolder(s, step.tok); }
    if step.HandleRetry? { PromoteRetryStatus(s.db, s.tokens[step.tok].job, step.pick); }
  }

  lemma SettledStays(g: Graph, s: State, step: Step, k: JobId)
    requires Enabled(s, step) && Inv(g, s) && k in Settled(s)
    ensures k in Settled(Apply(s, step)) && Final(Apply(s, step), k) == Final(s, k)
  {
    StepShaped(g, s, step);
    if k == StepJob(s, step) {
      OwnStaysSettled(s, step);
    } else {
      OthersSettle(s, Apply(s, step), step.tok, StepJob(s, step), k);
    }
  }

  // ---------------------------------------------------------------- what the writes say

  /** What one write says about the step it follows.  The completion handler writes to jobs that
      were open, a final status if the step settled the job and no final status otherwise; a
      worker writes RUNNING while it executes the job; the retry handler READY or QUEUED. */
  ghost predicate Tells(s: State, s': State, step: Step, x: Write) {
    && x.job in s.db.jobs && x.job in s'.db.jobs
    && match x.from
       case CompletionHandler =>
         && (step.HandleSuccess? || step.HandleFailure?) && x.job !in Settled(s)
         && (if x.job in Settled(s') then x.status == Final(s', x.job) else !IsTerminal(x.status))
       case Worker => step.StartJob? && x.status == Running && step.tok in s'.tokens && s'.tokens[step.tok] == Token(x.job, Executing)
       case RetryHandler => step.HandleRetry? && (x.status == Ready || x.status == Queued)
  }

  /** The jobs that the success script reports were waiting. */
  lemma SuccessTouches(db: Store, j: JobId, now: int, pick: Option<JobId>, k: JobId)
    requires Zsets(db) && SuccessApplies(db, j, now) && db.jobs[j].status == Running && NoDup(SuccessorsOf(db, j))
    requires IsPop(AfterSuccess(db, j).waiting, pick)
    requires var reply := CompleteSuccessful(db, j, now, pick).1;
      reply.Applied? && (k in reply.ready || k in Listed(reply.promoted))
    ensures k != j && k in db.jobs && IsWaitingToRun(db.jobs[k].status)
  {
    ReleaseAllReady(Release(db.jobs[j := db.jobs[j].(status := Completed)], db.waiting, db.wf.pending, []), SuccessorsOf(db, j));
    SuccessPointwise(db, j);
    SuccessZsets(db, j);
  }

  /** An open job that a step without cancellations leaves to others stays open. */
  lemma OpenStaysOpen(s: State, s': State, t: nat, j: JobId, k: JobId)
    requires Custody(s) && StepShape(s, s', t, j) && NewlyTerminal(s.db, s'.db, j) == {}
    requires k in s.db.jobs && k != j && IsWaitingToRun(s.db.jobs[k].status)
    ensures k in s'.db.jobs && k !in Settled(s) && k !in Settled(s')
  {
    OthersSettle(s, s', t, j, k);
  }

  /** The success script settles nobody but its own job. */
  lemma SuccessStatuses(db: Store, j: JobId, now: int, pick: Option<JobId>)
    requires Zsets(db) && SuccessApplies(db, j, now) && db.jobs[j].status == Running && NoDup(SuccessorsOf(db, j))
    requires IsPop(AfterSuccess(db, j).waiting, pick)
    ensures var (db', reply) := CompleteSuccessful(db, j, now, pick);
      && reply.Applied? && NewlyTerminal(db, db', j) == {}
      && j in db'.jobs && db'.jobs[j].status == Completed
  {
    AppliedSuccess(db, j, now, pick);
    AppliedSuccessBelongs(db, j, SuccessPromotes(db), pick);
    SuccessNewlyTerminal(db, j, SuccessPromotes(db), pick);
  }

  lemma CompletedSettles(s: State, s': State, t: nat, j: JobId)
    requires StepShape(s, s', t, j) && t !in s'.tokens && s.db.jobs[j].status == Running
    requires j in s'.db.jobs && s'.db.jobs[j].status == Completed
    ensures j !in Settled(s) && j in Settled(s') && Final(s', j) == Completed
  {
    SettledOwn(s, s', t, j);
    MarkingOwn(s.tokens, s'.tokens, t, j);
  }

  lemma AppliedSuccessSettles(s: State, t: nat, now: int, pick: Option<JobId>)
    requires Enabled(s, HandleSuccess(t, now, pick)) && Custody(s) && Zsets(s.db)
    requires SuccessApplies(s.db, s.tokens[t].job, now) && NoDup(SuccessorsOf(s.db, s.tokens[t].job))
    requires StepShape(s, AfterHandleSuccess(s, t, now, pick), t, s.tokens[t].job)
    ensures var j, s' := s.tokens[t].job, AfterHandleSuccess(s, t, now, pick);
      && NewlyTerminal(s.db, s'.db, j) == {} && j in s'.db.jobs
      && j !in Settled(s) && j in Settled(s') && Final(s', j) == Completed
  {
    SoleHolder(s, t);
    SuccessStatuses(s.db, s.tokens[t].job, now, pick);
    CompletedSettles(s, AfterHandleSuccess(s, t, now, pick), t, s.tokens[t].job);
  }

  lemma AnswerTells(s: State, s': State, t: nat, step: Step, j: JobId, reply: SuccessReply, x: Write)
    requires step.HandleSuccess? && Custody(s) && StepShape(s, s', t, j) && NewlyTerminal(s.db, s'.db, j) == {}
    requires j in s'.db.jobs && j !in Settled(s) && j in Settled(s') && Final(s', j) == Completed
    requires reply.Applied?
    requires forall k :: k in reply.ready || k in Listed(reply.promoted) ==>
               k != j && k in s.db.jobs && IsWaitingToRun(s.db.jobs[k].status)
    requires x in AnswerWrites(j, reply)
    ensures Tells(s, s', step, x)
  {
    WithoutElements(reply.ready, reply.promoted, x.job);
    if x.job != j { OpenStaysOpen(s, s', t, j, x.job); }
  }

  lemma SuccessTells(s: State, t: nat, now: int, pick: Option<JobId>, x: Write)
    requires Enabled(s, HandleSuccess(t, now, pick)) && Custody(s) && Zsets(s.db) && NoDup(SuccessorsOf(s.db, s.tokens[t].job))
    requires StepShape(s, AfterHandleSuccess(s, t, now, pick), t, s.tokens[t].job)
    requires x in AnswerWrites(s.tokens[t].job, CompleteSuccessful(s.db, s.tokens[t].job, now, pick).1)
    ensures Tells(s, AfterHandleSuccess(s, t, now, pick), HandleSuccess(t, now, pick), x)
  {
    SoleHolder(s, t);
    var j := s.tokens[t].job;
    if SuccessApplies(s.db, j, now) {
      AppliedSuccessSettles(s, t, now, pick);
      var reply := CompleteSuccessful(s.db, j, now, pick).1;
      forall k | k in reply.ready || k in Listed(reply.promoted)
        ensures k != j && k in s.db.jobs && IsWaitingToRun(s.db.jobs[k].status)
      {
        SuccessTouches(s.db, j, now, pick, k);
      }
      AnswerTells(s, AfterHandleSuccess(s, t, now, pick), t, HandleSuccess(t, now, pick), j, reply, x);
    } else {
      RefusedSuccess(s.db, j, now, pick);
    }
  }

  lemma ParkedIsOpen(s: State, t: nat, retryAt: int, pick: Option<JobId>)
    requires Custody(s) && Zsets(s.db) && t in s.tokens && s.tokens[t].phase.Handling? && s.tokens[t].phase.outcome.FailedRun?
    requires s.tokens[t].job in s.db.jobs && IsPop(s.db.waiting, pick)
    requires StepShape(s, AfterScheduleRetry(s, t, retryAt, pick), t, s.tokens[t].job)
    ensures var j, s' := s.tokens[t].job, AfterScheduleRetry(s, t, retryAt, pick);
      && NewlyTerminal(s.db, s'.db, j) == {} && j in s'.db.jobs && j !in Settled(s) && j !in Settled(s')
  {
    SoleHolder(s, t);
    ScheduleRetryCounts(s, AfterScheduleRetry(s, t, retryAt, pick), t, retryAt, pick);
    SettledOwn(s, AfterScheduleRetry(s, t, retryAt, pick), t, s.tokens[t].job);
  }

  lemma ParkedTells(s: State, s': State, t: nat, step: Step, j: JobId, promoted: Option<JobId>, x: Write)
    requires step.HandleFailure? && Custody(s) && StepShape(s, s', t, j) && NewlyTerminal(s.db, s'.db, j) == {}
    requires j in s'.db.jobs && j !in Settled(s) && j !in Settled(s')
    requires promoted.Some? ==> promoted.value != j && promoted.value in s.db.jobs && s.db.jobs[promoted.value].status == Ready
    requires x in ParkWrites(j, promoted)
    ensures Tells(s, s', step, x)
  {
    if x.job != j { OpenStaysOpen(s, s', t, j, x.job); }
  }

  lemma ParkTells(s: State, t: nat, now: int, retryAt: int, pick: Option<JobId>, x: Write)
    requires Enabled(s, HandleFailure(t, now, retryAt, pick)) && Custody(s) && Zsets(s.db) && TakesRetry(s, t, now)
    requires StepShape(s, AfterScheduleRetry(s, t, retryAt, pick), t, s.tokens[t].job)
    requires x in FailureWrites(s, t, now, retryAt, pick)
    ensures Tells(s, AfterScheduleRetry(s, t, retryAt, pick), HandleFailure(t, now, retryAt, pick), x)
  {
    SoleHolder(s, t);
    ParkedIsOpen(s, t, retryAt, pick);
    var j := s.tokens[t].job;
    var promoted := ScheduleRetry(s.db, j, RetryCountAfter(s.db.jobs[j], s.tokens[t].phase.outcome), retryAt, pick).1;
    ParkedTells(s, AfterScheduleRetry(s, t, retryAt, pick), t, HandleFailure(t, now, retryAt, pick), j, promoted, x);
  }

  lemma FailureSettles(s: State, t: nat)
    requires Custody(s) && t in s.tokens && s.tokens[t].phase.Handling? && !s.tokens[t].phase.outcome.Succeeded?
    requires s.tokens[t].job in s.db.jobs && StepShape(s, AfterTerminalFailure(s, t), t, s.tokens[t].job)
    ensures var j, o, s' := s.tokens[t].job, s.tokens[t].phase.outcome, AfterTerminalFailure(s, t);
      && j in s'.db.jobs && j !in Settled(s) && j in Settled(s')
      && Final(s', j) == (if o.AbortedRun? then Aborted else Failed)
  {
    SoleHolder(s, t);
    var j, s' := s.tokens[t].job, AfterTerminalFailure(s, t);
    TerminalFailureSettles(s, s', t);
    SettledOwn(s, s', t, j);
    MarkingOwn(s.tokens, s'.tokens, t, j);
    FailureOwnJob(s.db, j, RetryCountAfter(s.db.jobs[j], s.tokens[t].phase.outcome), s.roster);
  }

  lemma CanceledSettles(s: State, t: nat, k: JobId)
    requires Custody(s) && t in s.tokens && s.tokens[t].phase.Handling? && !s.tokens[t].phase.outcome.Succeeded?
    requires s.tokens[t].job in s.db.jobs && StepShape(s, AfterTerminalFailure(s, t), t, s.tokens[t].job)
    requires k != s.tokens[t].job && k in s.db.jobs
    ensures var j, o, s' := s.tokens[t].job, s.tokens[t].phase.outcome, AfterTerminalFailure(s, t);
      && k in s'.db.jobs
      && (k in CompleteFailed(s.db, j, RetryCountAfter(s.db.jobs[j], o), s.roster).1.canceled
          <==> k in Settled(s') && k !in Settled(s))
      && (k in Settled(s') && k !in Settled(s) ==> Final(s', k) == Aborted)
  {
    var j, o, s' := s.tokens[t].job, s.tokens[t].phase.outcome, AfterTerminalFailure(s, t);
    FailureNewlyTerminal(s.db, j, RetryCountAfter(s.db.jobs[j], o), s.roster);
    OthersSettle(s, s', t, j, k);
    assert k in CompleteFailed(s.db, j, RetryCountAfter(s.db.jobs[j], o), s.roster).1.canceled
      <==> k in Elems(CompleteFailed(s.db, j, RetryCountAfter(s.db.jobs[j], o), s.roster).1.canceled);
  }

  lemma CanceledAreOthers(db: Store, j: JobId, count: int, ids: seq<JobId>, k: JobId)
    requires j in db.jobs && k in CompleteFailed(db, j, count, ids).1.canceled
    ensures k != j && k in db.jobs
  {
    FailureNewlyTerminal(db, j, count, ids);
    assert k in Elems(CompleteFailed(db, j, count, ids).1.canceled);
  }

  lemma TerminalTells(s: State, t: nat, now: int, retryAt: int, pick: Option<JobId>, x: Write)
    requires Enabled(s, HandleFailure(t, now, retryAt, pick)) && Custody(s) && !TakesRetry(s, t, now)
    requires StepShape(s, AfterTerminalFailure(s, t), t, s.tokens[t].job)
    requires x in FailureWrites(s, t, now, retryAt, pick)
    ensures Tells(s, AfterTerminalFailure(s, t), HandleFailure(t, now, retryAt, pick), x)
  {
    var j, o := s.tokens[t].job, s.tokens[t].phase.outcome;
    FailureSettles(s, t);
    if x !in WritesOf(CompletionHandler, [j], if o.AbortedRun? then Aborted else Failed) {
      CanceledAreOthers(s.db, j, RetryCountAfter(s.db.jobs[j], o), s.roster, x.job);
      CanceledSettles(s, t, x.job);
    }
  }

  lemma StartTells(s: State, t: nat, now: int, x: Write)
    requires Enabled(s, StartJob(t, now)) && Custody(s) && x in StepWrites(s, StartJob(t, now))
    ensures Tells(s, AfterStart(s, t, now), StartJob(t, now), x)
  {
    SoleHolder(s, t);
    StartEffect(s.db, s.tokens[t].job, now);
  }

  lemma PromotedAreJobs(db: Store, j: JobId, pick: Option<JobId>)
    requires Zsets(db) && j in db.jobs && (RetryApplies(db, j) ==> IsPop(RetryToWaiting(db, j).waiting, pick))
    ensures forall k :: k in Listed(PromoteRetry(db, j, pick).1) ==> k in db.jobs
    ensures PromoteRetry(db, j, pick).0.jobs.Keys == db.jobs.Keys
  {
  }

  lemma RetryTells(s: State, t: nat, pick: Option<JobId>, x: Write)
    requires Enabled(s, HandleRetry(t, pick)) && Custody(s) && Zsets(s.db) && x in StepWrites(s, HandleRetry(t, pick))
    ensures Tells(s, AfterHandleRetry(s, t, pick), HandleRetry(t, pick), x)
  {
    SoleHolder(s, t);
    PromotedAreJobs(s.db, s.tokens[t].job, pick);
  }

  /** Every write of every step. */
  lemma StepTells(g: Graph, s: State, step: Step, x: Write)
    requires Enabled(s, step) && Inv(g, s) && x in StepWrites(s, step)
    ensures Tells(s, Apply(s, step), step, x)
  {
    StepShaped(g, s, step);
    if step.HandleSuccess? {
      HolderLists(g, s, step.tok);
      SuccessTells(s, step.tok, step.now, step.pick, x);
    } else if step.HandleFailure? {
      if TakesRetry(s, step.tok, step.now) {
        ParkTells(s, step.tok, step.now, step.retryAt, step.pick, x);
      } else {
        TerminalTells(s, step.tok, step.now, step.retryAt, step.pick, x);
      }
    } else if step.HandleRetry? {
      RetryTells(s, step.tok, step.pick, x);
    } else {
      StartTells(s, step.tok, step.now, x);
    }
  }

  // ---------------------------------------------------------------- whoever settles is written

  lemma SuccessWritesSettled(s: State, t: nat, now: int, pick: Option<JobId>, k: JobId)
    requires Enabled(s, HandleSuccess(t, now, pick)) && Custody(s) && Zsets(s.db) && NoDup(SuccessorsOf(s.db, s.tokens[t].job))
    requires StepShape(s, AfterHandleSuccess(s, t, now, pick), t, s.tokens[t].job)
    requires k in Settled(AfterHandleSuccess(s, t, now, pick)) && k !in Settled(s)
    ensures Write(CompletionHandler, k, Final(AfterHandleSuccess(s, t, now, pick), k))
         in AnswerWrites(s.tokens[t].job, CompleteSuccessful(s.db, s.tokens[t].job, now, pick).1)
  {
    SoleHolder(s, t);
    var j, s' := s.tokens[t].job, AfterHandleSuccess(s, t, now, pick);
    if SuccessApplies(s.db, j, now) {
      AppliedSuccessSettles(s, t, now, pick);
      SuccessStatuses(s.db, j, now, pick);
      if k != j { OthersSettle(s, s', t, j, k); }
      OwnIsAnswered(j, CompleteSuccessful(s.db, j, now, pick).1);
    } else {
      RefusedSettlesNothing(s, t, now, pick, k);
    }
  }

  lemma OwnIsAnswered(j: JobId, reply: SuccessReply)
    requires reply.Applied?
    ensures Write(CompletionHandler, j, Completed) in AnswerWrites(j, reply)
  {
    assert j in [j];
  }

  lemma RefusedSettlesNothing(s: State, t: nat, now: int, pick: Option<JobId>, k: JobId)
    requires Enabled(s, HandleSuccess(t, now, pick)) && Custody(s) && !SuccessApplies(s.db, s.tokens[t].job, now)
    requires StepShape(s, AfterHandleSuccess(s, t, now, pick), t, s.tokens[t].job)
    ensures k in Settled(AfterHandleSuccess(s, t, now, pick)) ==> k in Settled(s)
  {
    var j, s' := s.tokens[t].job, AfterHandleSuccess(s, t, now, pick);
    RefusedSuccessCounts(s, s', t, now, pick);
    SettledOwn(s, s', t, j);
    SettledElsewhere(s, s', t, j);
  }

  lemma FailureWritesSettled(s: State, t: nat, now: int, retryAt: int, pick: Option<JobId>, k: JobId)
    requires Enabled(s, HandleFailure(t, now, retryAt, pick)) && Custody(s) && Zsets(s.db)
    requires StepShape(s, Apply(s, HandleFailure(t, now, retryAt, pick)), t, s.tokens[t].job)
    requires var s' := Apply(s, HandleFailure(t, now, retryAt, pick)); k in Settled(s') && k !in Settled(s)
    ensures Write(CompletionHandler, k, Final(Apply(s, HandleFailure(t, now, retryAt, pick)), k)) in FailureWrites(s, t, now, retryAt, pick)
  {
    var j, o, s' := s.tokens[t].job, s.tokens[t].phase.outcome, Apply(s, HandleFailure(t, now, retryAt, pick));
    if TakesRetry(s, t, now) {
      ParkedIsOpen(s, t, retryAt, pick);
      OthersSettle(s, s', t, j, k);
    } else if k == j {
      FailureSettles(s, t);
      assert j in [j];
    } else {
      CanceledSettles(s, t, k);
    }
  }

  lemma QuietSettlesNothing(g: Graph, s: State, step: Step, k: JobId)
    requires Enabled(s, step) && Inv(g, s) && StepShape(s, Apply(s, step), step.tok, StepJob(s, step))
    requires !step.HandleSuccess? && !step.HandleFailure? && !step.HandleRetry? && k in Settled(Apply(s, step))
    ensures k in Settled(s)
  {
    var s', j := Apply(s, step), StepJob(s, step);
    TokenStepCounts(g, s, step);
    SettledOwn(s, s', step.tok, j);
    if k != j { OthersSettle(s, s', step.tok, j, k); }
  }

  lemma RetrySettlesAbandoned(s: State, t: nat, pick: Option<JobId>, k: JobId)
    requires Enabled(s, HandleRetry(t, pick)) && Zsets(s.db) && Custody(s) && Lifecycle(s.db)
    requires StepShape(s, AfterHandleRetry(s, t, pick), t, s.tokens[t].job)
    requires k in Settled(AfterHandleRetry(s, t, pick)) && k !in Settled(s)
    ensures k == s.tokens[t].job && IsAbandonment(s, HandleRetry(t, pick))
  {
    var s', j := AfterHandleRetry(s, t, pick), s.tokens[t].job;
    HandleRetryCounts(s, s', t, pick);
    RetrySettlesIffAbandoned(s, t, pick);
    SettledOwn(s, s', t, j);
    if k != j { OthersSettle(s, s', t, j, k); }
  }

  lemma HandlerWritesSettled(g: Graph, s: State, step: Step, k: JobId)
    requires Enabled(s, step) && Custody(s) && Zsets(s.db) && s.db.jobs.Keys == g.Keys && Dependencies(g, s.db)
    requires StepShape(s, Apply(s, step), step.tok, StepJob(s, step)) && (step.HandleSuccess? || step.HandleFailure?)
    requires k in Settled(Apply(s, step)) && k !in Settled(s)
    ensures Write(CompletionHandler, k, Final(Apply(s, step), k)) in StepWrites(s, step)
  {
    if step.HandleSuccess? {
      HolderLists(g, s, step.tok);
      SuccessWritesSettled(s, step.tok, step.now, step.pick, k);
    } else {
      FailureWritesSettled(s, step.tok, step.now, step.retryAt, step.pick, k);
    }
  }

  /** A job that settles gets its final status written, or it is abandoned. */
  lemma SettledIsWritten(g: Graph, s: State, step: Step, k: JobId)
    requires Enabled(s, step) && Inv(g, s) && k in Settled(Apply(s, step)) && k !in Settled(s)
    ensures || Write(CompletionHandler, k, Final(Apply(s, step), k)) in StepWrites(s, step)
            || (k == StepJob(s, step) && IsAbandonment(s, step))
  {
    StepShaped(g, s, step);
    if step.HandleSuccess? || step.HandleFailure? {
      HandlerWritesSettled(g, s, step, k);
    } else if step.HandleRetry? {
      RetrySettlesAbandoned(s, step.tok, step.pick, k);
    } else {
      QuietSettlesNothing(g, s, step, k);
    }
  }
}
