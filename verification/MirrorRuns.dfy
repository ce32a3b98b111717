/** The job table along a run.  A script and the table writes that follow it are separate calls,
    so writes land on their own time, between the steps of everybody else.  The code keeps three
    orders: a worker reports the end of a job only after its RUNNING was written, the retry
    handler turns to the next job only after it has written the last one up, and so does a single
    completion handler with its records. */
module MirrorRuns {
  import opened Dag
  import opened Runtime
  import opened Protocol
  import opened Invariants
  import opened Effects
  import opened Preservation
  import opened HypothesisProofs
  import opened LedgerProofs
  import opened Runs
  import opened OutcomeTheorems
  import opened Liveness
  import opened Finishing
  import opened Mirror
  import opened MirrorWrites

  /** The runtime, the table, and the writes issued but not yet made. */
  datatype System = System(s: State, rows: Rows, pending: multiset<Write>)

  datatype Move = Steps(step: Step) | Lands(write: Write)

  datatype Course = Opened(first: System) | Onward(before: Course, move: Move, after: System)

  function Now(c: Course): System {
    match c case Opened(sys) => sys case Onward(_, _, sys) => sys
  }

  /** The component that takes the step has made the writes it has to make first. */
  ghost predicate MayStep(h: Hypotheses, sys: System, step: Step)
    requires Enabled(sys.s, step)
  {
    && (step.Finish? ==> forall x :: x in sys.pending && x.from == Worker ==> x.job != sys.s.tokens[step.tok].job)
    && (step.PopRetry? || step.HandleRetry? ==> forall x :: x in sys.pending ==> x.from != RetryHandler)
    && (h.oneHandler && step.Take? ==> forall x :: x in sys.pending ==> x.from != CompletionHandler)
  }

  /** A single completion handler marks the job ABORTED in Redis before it turns to the table. */
  ghost predicate MayLand(h: Hypotheses, sys: System, x: Write) {
    h.oneHandler && x.from == CompletionHandler ==> !HasMarking(sys.s.tokens)
  }

  ghost predicate HasMarking(tokens: map<nat, Token>) {
    exists t :: t in tokens && tokens[t].phase.MarkingAborted?
  }

  function Written(rows: Rows, x: Write): Rows {
    if x.job in rows then rows[x.job := x.status] else rows
  }

  ghost predicate NextMove(h: Hypotheses, a: System, m: Move, b: System) {
    match m
    case Steps(step) =>
      && Next(h, a.s, step, b.s) && MayStep(h, a, step)
      && b.rows == a.rows && b.pending == a.pending + multiset(StepWrites(a.s, step))
    case Lands(x) => x in a.pending && MayLand(h, a, x) && b == System(a.s, Written(a.rows, x), a.pending - multiset{x})
  }

  ghost predicate IsCourse(g: Graph, h: Hypotheses, c: Course) {
    match c
    case Opened(sys) => Initial(g, sys.s) && sys.rows == Viewed(sys.s.db.jobs) && sys.pending == multiset{}
    case Onward(before, m, sys) => IsCourse(g, h, before) && NextMove(h, Now(before), m, sys)
  }

  /** The steps of a course are a run. */
  function RunOf(c: Course): Run {
    match c
    case Opened(sys) => Admitted(sys.s)
    case Onward(before, m, sys) => if m.Steps? then Then(RunOf(before), m.step, sys.s) else RunOf(before)
  }

  /** The writes in the order in which they land. */
  function Trace(c: Course): seq<Write> {
    match c
    case Opened(_) => []
    case Onward(before, m, _) => if m.Lands? then Trace(before) + [m.write] else Trace(before)
  }

  lemma {:induction false} CourseIsRun(g: Graph, h: Hypotheses, c: Course)
    requires IsCourse(g, h, c)
    ensures IsRun(g, h, RunOf(c)) && Last(RunOf(c)) == Now(c).s
  {
    if c.Onward? { CourseIsRun(g, h, c.before); }
  }

  lemma CourseInv(g: Graph, h: Hypotheses, c: Course)
    requires IsCourse(g, h, c)
    ensures Inv(g, Now(c).s)
  {
    CourseIsRun(g, h, c);
    RunReachable(g, h, RunOf(c));
  }

  // ---------------------------------------------------------------- any number of handlers

  ghost predicate IsExecuting(tokens: map<nat, Token>, j: JobId) {
    exists t :: t in tokens && tokens[t] == Token(j, Executing)
  }

  /** A final status that is written is that of a settled job; RUNNING is written while the job
      executes; the retry handler writes no final status. */
  ghost predicate WriteFits(s: State, x: Write) {
    && x.job in s.db.jobs
    && (IsTerminal(x.status) ==> x.job in Settled(s) && x.status == Final(s, x.job))
    && (x.from == Worker ==> x.status == Running && IsExecuting(s.tokens, x.job))
    && (x.from == RetryHandler ==> x.status == Ready || x.status == Queued)
  }

  ghost predicate RowFits(s: State, rows: Rows, j: JobId)
    requires j in rows && j in s.db.jobs
  {
    IsTerminal(rows[j]) ==> j in Settled(s) && rows[j] == Final(s, j)
  }

  ghost predicate TableFits(sys: System) {
    && sys.rows.Keys == sys.s.db.jobs.Keys
    && (forall x {:trigger WriteFits(sys.s, x)} :: x in sys.pending ==> WriteFits(sys.s, x))
    && (forall j {:trigger RowFits(sys.s, sys.rows, j)} :: j in sys.rows ==> RowFits(sys.s, sys.rows, j))
  }

  lemma LandingFits(sys: System, x: Write)
    requires TableFits(sys) && x in sys.pending
    ensures TableFits(System(sys.s, Written(sys.rows, x), sys.pending - multiset{x}))
  {
    assert WriteFits(sys.s, x);
    var rows' := Written(sys.rows, x);
    forall j | j in rows' ensures RowFits(sys.s, rows', j) {
      assert RowFits(sys.s, sys.rows, j);
    }
  }

  lemma ExecutingStays(s: State, s': State, step: Step, j: JobId)
    requires Enabled(s, step) && s' == Apply(s, step) && OnlyToken(s.tokens, s'.tokens, step.tok, StepJob(s, step))
    requires IsExecuting(s.tokens, j) && !(step.Finish? && s.tokens[step.tok].job == j)
    ensures IsExecuting(s'.tokens, j)
  {
    var t :| t in s.tokens && s.tokens[t] == Token(j, Executing);
    assert t != step.tok;
    assert t in s'.tokens && s'.tokens[t] == s.tokens[t];
  }

  lemma OldWriteFits(g: Graph, h: Hypotheses, sys: System, step: Step, x: Write)
    requires Enabled(sys.s, step) && Inv(g, sys.s) && MayStep(h, sys, step) && x in sys.pending && WriteFits(sys.s, x)
    ensures WriteFits(Apply(sys.s, step), x)
  {
    StepShaped(g, sys.s, step);
    if IsTerminal(x.status) { SettledStays(g, sys.s, step, x.job); }
    if x.from == Worker { ExecutingStays(sys.s, Apply(sys.s, step), step, x.job); }
  }

  lemma NewWriteFits(s: State, s': State, step: Step, x: Write)
    requires Tells(s, s', step, x)
    ensures WriteFits(s', x)
  {
  }

  lemma RowStaysFit(g: Graph, s: State, step: Step, rows: Rows, j: JobId)
    requires Enabled(s, step) && Inv(g, s) && j in rows && j in s.db.jobs && RowFits(s, rows, j)
    ensures j in Apply(s, step).db.jobs && RowFits(Apply(s, step), rows, j)
  {
    StepShaped(g, s, step);
    if IsTerminal(rows[j]) { SettledStays(g, s, step, j); }
  }

  lemma StepFits(g: Graph, h: Hypotheses, sys: System, step: Step)
    requires Enabled(sys.s, step) && Inv(g, sys.s) && MayStep(h, sys, step) && TableFits(sys)
    ensures TableFits(System(Apply(sys.s, step), sys.rows, sys.pending + multiset(StepWrites(sys.s, step))))
  {
    var s' := Apply(sys.s, step);
    var pending' := sys.pending + multiset(StepWrites(sys.s, step));
    StepShaped(g, sys.s, step);
    forall x | x in pending' ensures WriteFits(s', x) {
      if x in sys.pending {
        assert WriteFits(sys.s, x);
        OldWriteFits(g, h, sys, step, x);
      } else {
        StepTells(g, sys.s, step, x);
        NewWriteFits(sys.s, s', step, x);
      }
    }
    forall j | j in sys.rows ensures j in s'.db.jobs && RowFits(s', sys.rows, j) {
      assert RowFits(sys.s, sys.rows, j);
      RowStaysFit(g, sys.s, step, sys.rows, j);
    }
  }

  lemma OpeningFits(g: Graph, sys: System)
    requires Initial(g, sys.s) && sys.rows == Viewed(sys.s.db.jobs) && sys.pending == multiset{}
    ensures TableFits(sys)
  {
    forall j | j in sys.rows ensures RowFits(sys.s, sys.rows, j) {
      assert InitialJob(g, j, sys.s.db.jobs[j]);
    }
  }

  lemma {:induction false} CourseFits(g: Graph, h: Hypotheses, c: Course)
    requires IsCourse(g, h, c)
    ensures TableFits(Now(c))
  {
    match c
    case Opened(sys) => OpeningFits(g, sys);
    case Onward(before, m, _) =>
      CourseFits(g, h, before);
      if m.Lands? {
        LandingFits(Now(before), m.write);
      } else {
        CourseInv(g, h, before);
        StepFits(g, h, Now(before), m.step);
      }
  }

  /** At any time, with any number of handlers and whatever is still to be written: a row that says
      COMPLETED, FAILED or ABORTED is right, but for an ABORTED that Redis still holds as FAILED. */
  lemma FinalRowsAreTrue(g: Graph, h: Hypotheses, c: Course, j: JobId)
    requires IsCourse(g, h, c) && j in Now(c).rows && IsTerminal(Now(c).rows[j])
    ensures var s, row := Now(c).s, Now(c).rows[j];
      && j in s.db.jobs && IsTerminal(s.db.jobs[j].status)
      && (row == s.db.jobs[j].status || (row == Aborted && s.db.jobs[j].status == Failed && IsMarking(s.tokens, j)))
  {
    CourseFits(g, h, c);
    CourseInv(g, h, c);
    assert RowFits(Now(c).s, Now(c).rows, j);
    if IsMarking(Now(c).s.tokens, j) { MarkedIsFailed(Now(c).s, j); }
  }

  /** Nothing can happen any more and nothing is left to write. */
  ghost predicate IsOver(sys: System) {
    Quiescent(sys.s) && sys.pending == multiset{}
  }

  lemma TablesEqual(g: Graph, rows: Rows, jobs: map<JobId, Job>)
    requires rows.Keys == jobs.Keys == g.Keys
    ensures rows == Viewed(jobs) <==> forall j :: j in g ==> rows[j] == View(jobs[j].status)
  {
  }

  /** What lands on the row of `j`, in order. */
  function RowWrites(w: seq<Write>, j: JobId): seq<JobStatus> {
    if w == [] then []
    else RowWrites(w[..|w| - 1], j) + if w[|w| - 1].job == j then [w[|w| - 1].status] else []
  }

  function LastOr(v: seq<JobStatus>, first: JobStatus): JobStatus {
    if v == [] then first else v[|v| - 1]
  }

  lemma RowWritesSnoc(w: seq<Write>, x: Write, j: JobId)
    ensures RowWrites(w + [x], j) == RowWrites(w, j) + if x.job == j then [x.status] else []
  {
    assert (w + [x])[..|w|] == w;
  }

  /** A row holds the last value that landed on it, else the one it had. */
  lemma {:induction false} LastWriteStays(g: Graph, h: Hypotheses, c: Course, j: JobId)
    requires IsCourse(g, h, c) && j in g
    ensures j in Now(c).rows && j in First(RunOf(c)).db.jobs
    ensures Now(c).rows[j] == LastOr(RowWrites(Trace(c), j), View(First(RunOf(c)).db.jobs[j].status))
  {
    match c
    case Opened(_) =>
    case Onward(before, m, _) =>
      LastWriteStays(g, h, before, j);
      if m.Lands? { WrittenLast(Now(before).rows, Trace(before), m.write, j, View(First(RunOf(c)).db.jobs[j].status)); }
  }

  lemma WrittenLast(rows: Rows, w: seq<Write>, x: Write, j: JobId, first: JobStatus)
    requires j in rows && rows[j] == LastOr(RowWrites(w, j), first)
    ensures j in Written(rows, x) && Written(rows, x)[j] == LastOr(RowWrites(w + [x], j), first)
  {
    RowWritesSnoc(w, x, j);
  }

  /** The last write to land on the row of `j` is a final status. */
  ghost predicate EndsFinal(w: seq<Write>, j: JobId) {
    var v := RowWrites(w, j);
    v != [] && IsTerminal(v[|v| - 1])
  }

  lemma {:induction false} FirstStatus(g: Graph, h: Hypotheses, r: Run, j: JobId)
    requires IsRun(g, h, r) && j in g
    ensures j in First(r).db.jobs && !IsTerminal(View(First(r).db.jobs[j].status))
  {
    if r.Then? {
      FirstStatus(g, h, r.before, j);
    } else {
      assert InitialJob(g, j, r.first.db.jobs[j]);
    }
  }

  lemma FinalLast(w: seq<Write>, j: JobId, first: JobStatus)
    requires !IsTerminal(first)
    ensures IsTerminal(LastOr(RowWrites(w, j), first)) <==> EndsFinal(w, j)
  {
  }

  lemma FinalByTrace(g: Graph, h: Hypotheses, c: Course, j: JobId)
    requires IsCourse(g, h, c) && j in g
    ensures j in Now(c).rows && (IsTerminal(Now(c).rows[j]) <==> EndsFinal(Trace(c), j))
  {
    LastWriteStays(g, h, c, j);
    CourseIsRun(g, h, c);
    FirstStatus(g, h, RunOf(c), j);
    FinalLast(Trace(c), j, View(First(RunOf(c)).db.jobs[j].status));
  }

  lemma FinalRowIff(g: Graph, h: Hypotheses, c: Course, j: JobId)
    requires IsCourse(g, h, c) && Now(c).s.tokens == map[] && j in g
    requires j in Now(c).s.db.jobs && IsTerminal(Now(c).s.db.jobs[j].status)
    ensures j in Now(c).rows
    ensures Now(c).rows[j] == View(Now(c).s.db.jobs[j].status) <==> EndsFinal(Trace(c), j)
  {
    FinalByTrace(g, h, c, j);
    if IsTerminal(Now(c).rows[j]) { FinalRowsAreTrue(g, h, c, j); }
  }

  /** With any number of handlers: when the workflow is finished and everything is written, the table
      agrees with Redis if and only if on every row a final status was the last to land. */
  lemma FinishedTableIff(g: Graph, h: Hypotheses, c: Course)
    requires IsCourse(g, h, c) && IsOver(Now(c)) && Finished(g, Now(c).s)
    ensures Now(c).rows == Viewed(Now(c).s.db.jobs) <==> forall j :: j in g ==> EndsFinal(Trace(c), j)
  {
    CourseInv(g, h, c);
    QuiescentIsEmpty(Now(c).s);
    CourseFits(g, h, c);
    forall j | j in g
      ensures j in Now(c).rows && j in Now(c).s.db.jobs
      ensures Now(c).rows[j] == View(Now(c).s.db.jobs[j].status) <==> EndsFinal(Trace(c), j)
    {
      assert j in Terminal(Now(c).s.db.jobs);
      FinalRowIff(g, h, c, j);
    }
    TablesEqual(g, Now(c).rows, Now(c).s.db.jobs);
  }

  // ---------------------------------------------------------------- one handler

  ghost predicate IsLate(w: seq<Write>, j: JobId, i: nat)
    requires i < |w|
  {
    && w[i].from == RetryHandler && w[i].job == j
    && forall k :: i < k < |w| && w[k].job == j ==> w[k].from != CompletionHandler
  }

  /** A write of the retry handler lands on the row of `j` after the completion handler's last one. */
  ghost predicate Overtaken(w: seq<Write>, j: JobId) {
    exists i :: 0 <= i < |w| && IsLate(w, j, i)
  }

  lemma OvertakenSnoc(w: seq<Write>, x: Write, j: JobId)
    ensures Overtaken(w + [x], j) <==>
      if x.job != j || x.from == Worker then Overtaken(w, j) else x.from == RetryHandler
  {
    var w' := w + [x];
    if x.job == j && x.from == RetryHandler { assert IsLate(w', j, |w|); }
    if i :| 0 <= i < |w| && IsLate(w, j, i) {
      if x.job != j || x.from == Worker { assert IsLate(w', j, i); }
    }
    if i :| 0 <= i < |w'| && IsLate(w', j, i) {
      if i < |w| {
        forall k | i < k < |w| && w[k].job == j ensures w[k].from != CompletionHandler { assert w'[k] == w[k]; }
        assert IsLate(w, j, i);
        assert w'[|w|] == x;
      }
    }
  }

  ghost function GivenUp(s: State, step: Step): set<JobId> {
    if IsAbandonment(s, step) then {s.tokens[step.tok].job} else {}
  }

  /** The jobs given up uncounted in the run. */
  ghost function AbandonedJobs(r: Run): set<JobId> {
    match r
    case Admitted(_) => {}
    case Then(before, step, _) => AbandonedJobs(before) + GivenUp(Last(before), step)
  }

  lemma {:induction false} NoneAbandoned(r: Run)
    requires Abandoned(r) == 0
    ensures AbandonedJobs(r) == {}
  {
    if r.Then? { NoneAbandoned(r.before); }
  }

  /** The row of a settled job: if the completion handler still has to write to it, then the final
      status; else it holds that status, or what the retry handler wrote after it. */
  ghost predicate RowIsClosed(sys: System, w: seq<Write>, j: JobId)
    requires j in sys.rows && j in sys.s.db.jobs
  {
    && (forall x :: x in sys.pending && x.from == CompletionHandler && x.job == j ==> x.status == Final(sys.s, j))
    && ((forall x :: x in sys.pending && x.from == CompletionHandler ==> x.job != j) ==>
          if Overtaken(w, j) then sys.rows[j] == Ready || sys.rows[j] == Queued else sys.rows[j] == Final(sys.s, j))
  }

  /** Whoever handles a record has nothing to write. */
  ghost predicate HandlerIsFree(sys: System) {
    && OneHandler(sys.s)
    && ((exists t :: t in sys.s.tokens && sys.s.tokens[t].phase.Handling?) ==>
          forall x :: x in sys.pending ==> x.from != CompletionHandler)
  }

  ghost predicate RowsAreClosed(sys: System, w: seq<Write>, abandoned: set<JobId>) {
    && sys.rows.Keys == sys.s.db.jobs.Keys
    && forall j {:trigger RowIsClosed(sys, w, j)} :: j in Settled(sys.s) && j !in abandoned ==> RowIsClosed(sys, w, j)
  }

  /** A landing write closes its row, or overtakes the completion handler. */
  lemma LandingCloses(sys: System, x: Write, w: seq<Write>, j: JobId)
    requires x in sys.pending && WriteFits(sys.s, x) && Custody(sys.s) && j in sys.rows && j in Settled(sys.s)
    requires RowIsClosed(sys, w, j)
    ensures RowIsClosed(System(sys.s, Written(sys.rows, x), sys.pending - multiset{x}), w + [x], j)
  {
    OvertakenSnoc(w, x, j);
    if x.from == Worker { ExecutingRuns(sys.s, x.job); }
    var pending' := sys.pending - multiset{x};
    if x.job != j {
      forall y | y in sys.pending && y.from == CompletionHandler && y.job == j ensures y in pending' {
      }
    }
  }

  lemma ExecutingRuns(s: State, j: JobId)
    requires Custody(s) && IsExecuting(s.tokens, j)
    ensures j in s.db.jobs && s.db.jobs[j].status == Running && j !in Settled(s)
  {
    var t :| t in s.tokens && s.tokens[t] == Token(j, Executing);
    assert TokenFits(s, t);
  }

  lemma LandingsClose(sys: System, x: Write, w: seq<Write>, abandoned: set<JobId>)
    requires x in sys.pending && WriteFits(sys.s, x) && Custody(sys.s) && RowsAreClosed(sys, w, abandoned)
    ensures RowsAreClosed(System(sys.s, Written(sys.rows, x), sys.pending - multiset{x}), w + [x], abandoned)
  {
    var sys' := System(sys.s, Written(sys.rows, x), sys.pending - multiset{x});
    forall j | j in Settled(sys.s) && j !in abandoned ensures RowIsClosed(sys', w + [x], j) {
      assert RowIsClosed(sys, w, j);
      LandingCloses(sys, x, w, j);
    }
  }

  /** A job that was settled: nothing more is written to it but by the retry handler. */
  lemma ClosedStaysClosed(g: Graph, sys: System, step: Step, w: seq<Write>, j: JobId)
    requires Enabled(sys.s, step) && Inv(g, sys.s) && j in sys.rows && j in Settled(sys.s) && RowIsClosed(sys, w, j)
    ensures j in Apply(sys.s, step).db.jobs
    ensures RowIsClosed(System(Apply(sys.s, step), sys.rows, sys.pending + multiset(StepWrites(sys.s, step))), w, j)
  {
    SettledStays(g, sys.s, step, j);
    forall x | x in StepWrites(sys.s, step) && x.from == CompletionHandler ensures x.job != j {
      StepTells(g, sys.s, step, x);
    }
  }

  /** While a record is handled, what the completion handler has to write comes from this step. */
  lemma WritesAreNew(sys: System, step: Step, x: Write)
    requires Enabled(sys.s, step) && HandlerIsFree(sys) && (step.HandleSuccess? || step.HandleFailure?)
    requires x in sys.pending + multiset(StepWrites(sys.s, step)) && x.from == CompletionHandler
    ensures x in StepWrites(sys.s, step)
  {
    HandlingSteps(sys.s, step);
  }

  lemma SettlingIsWritten(g: Graph, s: State, step: Step, j: JobId)
    requires Enabled(s, step) && Inv(g, s) && j !in Settled(s) && j in Settled(Apply(s, step)) && j !in GivenUp(s, step)
    ensures Write(CompletionHandler, j, Final(Apply(s, step), j)) in StepWrites(s, step)
    ensures step.HandleSuccess? || step.HandleFailure?
  {
    SettledIsWritten(g, s, step, j);
    StepTells(g, s, step, Write(CompletionHandler, j, Final(Apply(s, step), j)));
  }

  lemma PendingIsFinal(g: Graph, sys: System, step: Step, x: Write)
    requires Enabled(sys.s, step) && Inv(g, sys.s) && HandlerIsFree(sys) && (step.HandleSuccess? || step.HandleFailure?)
    requires x in sys.pending + multiset(StepWrites(sys.s, step)) && x.from == CompletionHandler
    requires x.job in Settled(Apply(sys.s, step))
    ensures x.status == Final(Apply(sys.s, step), x.job)
  {
    WritesAreNew(sys, step, x);
    StepTells(g, sys.s, step, x);
  }

  /** A job that settles: its final status is the only thing the completion handler has to write. */
  lemma SettlingCloses(g: Graph, sys: System, step: Step, w: seq<Write>, j: JobId)
    requires Enabled(sys.s, step) && Inv(g, sys.s) && HandlerIsFree(sys) && j in sys.rows
    requires j !in Settled(sys.s) && j in Settled(Apply(sys.s, step)) && j !in GivenUp(sys.s, step)
    ensures RowIsClosed(System(Apply(sys.s, step), sys.rows, sys.pending + multiset(StepWrites(sys.s, step))), w, j)
  {
    var s', ws := Apply(sys.s, step), StepWrites(sys.s, step);
    SettlingIsWritten(g, sys.s, step, j);
    forall y | y in sys.pending + multiset(ws) && y.from == CompletionHandler && y.job == j ensures y.status == Final(s', j) {
      PendingIsFinal(g, sys, step, y);
    }
    assert Write(CompletionHandler, j, Final(s', j)) in sys.pending + multiset(ws);
  }

  lemma HandlingSteps(s: State, step: Step)
    requires Enabled(s, step) && (step.HandleSuccess? || step.HandleFailure?)
    ensures exists t :: t in s.tokens && s.tokens[t].phase.Handling?
  {
    assert s.tokens[step.tok].phase.Handling?;
  }

  lemma StepCloses(g: Graph, sys: System, step: Step, w: seq<Write>, abandoned: set<JobId>)
    requires Enabled(sys.s, step) && Inv(g, sys.s) && HandlerIsFree(sys) && RowsAreClosed(sys, w, abandoned)
    ensures RowsAreClosed(System(Apply(sys.s, step), sys.rows, sys.pending + multiset(StepWrites(sys.s, step))), w,
                          abandoned + GivenUp(sys.s, step))
  {
    var sys' := System(Apply(sys.s, step), sys.rows, sys.pending + multiset(StepWrites(sys.s, step)));
    var abandoned' := abandoned + GivenUp(sys.s, step);
    StepShaped(g, sys.s, step);
    forall j | j in Settled(sys'.s) && j !in abandoned' ensures RowIsClosed(sys', w, j) {
      if j in Settled(sys.s) {
        assert RowIsClosed(sys, w, j);
        ClosedStaysClosed(g, sys, step, w, j);
      } else {
        SettlingCloses(g, sys, step, w, j);
      }
    }
  }

  /** Only a handled record leaves writes to the completion handler, and then nobody handles another. */
  lemma StepFrees(g: Graph, h: Hypotheses, sys: System, step: Step)
    requires Enabled(sys.s, step) && Respects(h, sys.s, step) && h.oneHandler && Inv(g, sys.s)
    requires MayStep(h, sys, step) && HandlerIsFree(sys)
    ensures HandlerIsFree(System(Apply(sys.s, step), sys.rows, sys.pending + multiset(StepWrites(sys.s, step))))
  {
    var s' := Apply(sys.s, step);
    StepShaped(g, sys.s, step);
    HandlersOf(sys.s, step);
    StepOneHandler(sys.s, s', step.tok, StepJob(sys.s, step));
    if t :| t in s'.tokens && s'.tokens[t].phase.Handling? {
      forall x | x in sys.pending + multiset(StepWrites(sys.s, step)) ensures x.from != CompletionHandler {
        if x in StepWrites(sys.s, step) { StepTells(g, sys.s, step, x); }
        if x !in StepWrites(sys.s, step) || x.from == CompletionHandler { HandlerLeft(sys.s, step, t); }
      }
    }
  }

  lemma HandlersOf(s: State, step: Step)
    requires Enabled(s, step)
    ensures var s', t := Apply(s, step), step.tok;
      t in s'.tokens && IsHandling(s'.tokens[t].phase) ==> step.Take? || (t in s.tokens && IsHandling(s.tokens[t].phase))
  {
  }

  /** A token that is being handled after the step was handled before, or was just taken; a step
      that issues writes of the completion handler leaves none. */
  lemma HandlerLeft(s: State, step: Step, t: nat)
    requires Enabled(s, step) && OneHandler(s) && OnlyToken(s.tokens, Apply(s, step).tokens, step.tok, StepJob(s, step))
    requires t in Apply(s, step).tokens && Apply(s, step).tokens[t].phase.Handling?
    ensures step.Take? || (t in s.tokens && s.tokens[t].phase.Handling?)
    ensures step.HandleSuccess? || step.HandleFailure? ==> StepWrites(s, step) == {}
  {
  }

  lemma MoveCloses(g: Graph, h: Hypotheses, a: System, m: Move, b: System, w: seq<Write>, abandoned: set<JobId>)
    requires NextMove(h, a, m, b) && h.oneHandler && Inv(g, a.s) && TableFits(a)
    requires HandlerIsFree(a) && RowsAreClosed(a, w, abandoned)
    ensures HandlerIsFree(b)
    ensures m.Lands? ==> RowsAreClosed(b, w + [m.write], abandoned)
    ensures m.Steps? ==> RowsAreClosed(b, w, abandoned + GivenUp(a.s, m.step))
  {
    if m.Lands? {
      assert WriteFits(a.s, m.write);
      LandingsClose(a, m.write, w, abandoned);
    } else {
      StepFrees(g, h, a, m.step);
      StepCloses(g, a, m.step, w, abandoned);
    }
  }

  lemma {:induction false} CourseCloses(g: Graph, h: Hypotheses, c: Course)
    requires IsCourse(g, h, c) && h.oneHandler
    ensures HandlerIsFree(Now(c)) && RowsAreClosed(Now(c), Trace(c), AbandonedJobs(RunOf(c)))
  {
    match c
    case Opened(sys) => OpeningCloses(g, sys);
    case Onward(before, m, sys) =>
      CourseCloses(g, h, before);
      CourseFits(g, h, before);
      CourseInv(g, h, before);
      CourseIsRun(g, h, before);
      MoveCloses(g, h, Now(before), m, sys, Trace(before), AbandonedJobs(RunOf(before)));
  }

  lemma OpeningCloses(g: Graph, sys: System)
    requires Initial(g, sys.s) && sys.rows == Viewed(sys.s.db.jobs) && sys.pending == multiset{}
    ensures HandlerIsFree(sys) && RowsAreClosed(sys, [], {})
  {
    forall j | j in sys.s.db.jobs ensures j !in Settled(sys.s) {
      assert InitialJob(g, j, sys.s.db.jobs[j]);
    }
  }

  // ---------------------------------------------------------------- the table in the end

  lemma OverMeansFinal(s: State, j: JobId)
    requires s.tokens == map[] && j in s.db.jobs && IsTerminal(s.db.jobs[j].status)
    ensures j in Settled(s) && Final(s, j) == View(s.db.jobs[j].status)
  {
  }

  /** With one completion handler, the row of a terminal job that was not abandoned is right in the
      end if and only if the retry handler did not overtake the completion handler on it. */
  lemma RowAgreesIff(g: Graph, h: Hypotheses, c: Course, j: JobId)
    requires IsCourse(g, h, c) && h.oneHandler && IsOver(Now(c))
    requires j in Now(c).s.db.jobs && IsTerminal(Now(c).s.db.jobs[j].status) && j !in AbandonedJobs(RunOf(c))
    ensures j in Now(c).rows
    ensures Now(c).rows[j] == View(Now(c).s.db.jobs[j].status) <==> !Overtaken(Trace(c), j)
  {
    CourseCloses(g, h, c);
    CourseInv(g, h, c);
    QuiescentIsEmpty(Now(c).s);
    OverMeansFinal(Now(c).s, j);
    assert RowIsClosed(Now(c), Trace(c), j);
  }

  /** With one completion handler: when the workflow is finished and everything is written, the table
      agrees with Redis if and only if no write of the retry handler landed on a row after the
      completion handler's last one. */
  lemma TableAgreesIff(g: Graph, h: Hypotheses, c: Course)
    requires IsCourse(g, h, c) && h.oneHandler && IsOver(Now(c)) && Finished(g, Now(c).s)
    ensures Now(c).rows == Viewed(Now(c).s.db.jobs) <==> forall j :: j in g ==> !Overtaken(Trace(c), j)
  {
    CourseIsRun(g, h, c);
    StuckSignalledIff(g, h, RunOf(c));
    NoneAbandoned(RunOf(c));
    CourseFits(g, h, c);
    forall j | j in g
      ensures j in Now(c).rows && j in Now(c).s.db.jobs
      ensures Now(c).rows[j] == View(Now(c).s.db.jobs[j].status) <==> !Overtaken(Trace(c), j)
    {
      assert j in Terminal(Now(c).s.db.jobs);
      RowAgreesIff(g, h, c, j);
    }
    TablesEqual(g, Now(c).rows, Now(c).s.db.jobs);
  }
}
