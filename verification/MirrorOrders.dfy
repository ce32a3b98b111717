/** For which runs the table is right in the end whatever the order in which the writes land. */
module MirrorOrders {
  import opened Basics
  import opened Dag
  import opened Runtime
  import opened JobScripts
  import opened Protocol
  import opened Runs
  import opened Liveness
  import opened Finishing
  import opened Mirror
  import opened MirrorWrites
  import opened MirrorRuns

  /** The retry handler took up some parked job. */
  ghost predicate HasRetry(r: Run) {
    r.Then? && (HasRetry(r.before) || r.step.HandleRetry?)
  }

  ghost predicate OnlyRetries(pending: multiset<Write>) {
    forall x :: x in pending ==> x.from == RetryHandler
  }

  /** Workers have written everything, the completion handler as soon as it could. */
  ghost predicate IsPrompt(sys: System) {
    forall x :: x in sys.pending ==>
      x.from == RetryHandler || (x.from == CompletionHandler && HasMarking(sys.s.tokens))
  }

  // ---------------------------------------------------------------- courses of a run

  lemma Land(g: Graph, h: Hypotheses, c: Course, x: Write) returns (c': Course)
    requires IsCourse(g, h, c) && x in Now(c).pending && MayLand(h, Now(c), x)
    ensures IsCourse(g, h, c') && RunOf(c') == RunOf(c) && Trace(c') == Trace(c) + [x]
    ensures Now(c') == System(Now(c).s, Written(Now(c).rows, x), Now(c).pending - multiset{x})
  {
    c' := Onward(c, Lands(x), System(Now(c).s, Written(Now(c).rows, x), Now(c).pending - multiset{x}));
  }

  lemma OneLess(pending: multiset<Write>, x: Write, who: Component)
    requires x in pending && x.from == who
    ensures |pending - multiset{x}| < |pending|
    ensures forall y: Write :: y.from != who ==> (y in pending - multiset{x} <==> y in pending)
  {
  }

  /** The component `who` makes all its writes. */
  lemma {:induction false} LandAll(g: Graph, h: Hypotheses, c: Course, who: Component) returns (c': Course)
    requires IsCourse(g, h, c) && (who == CompletionHandler ==> !HasMarking(Now(c).s.tokens))
    ensures IsCourse(g, h, c') && RunOf(c') == RunOf(c) && Now(c').s == Now(c).s
    ensures forall x :: x in Now(c').pending <==> x in Now(c).pending && x.from != who
    decreases |Now(c).pending|
  {
    if x :| x in Now(c).pending && x.from == who {
      OneLess(Now(c).pending, x, who);
      var c1 := Land(g, h, c, x);
      c' := LandAll(g, h, c1, who);
    } else {
      c' := c;
    }
  }

  predicate IsOfRetryHandler(step: Step) {
    step.PopRetry? || step.HandleRetry?
  }

  lemma StepOn(g: Graph, h: Hypotheses, c: Course, step: Step, s': State) returns (c': Course)
    requires IsCourse(g, h, c) && Next(h, Now(c).s, step, s') && IsPrompt(Now(c))
    requires IsOfRetryHandler(step) ==> forall x :: x in Now(c).pending ==> x.from != RetryHandler
    ensures IsCourse(g, h, c') && RunOf(c') == Then(RunOf(c), step, s') && Now(c').s == s'
    ensures Now(c').pending == Now(c).pending + multiset(StepWrites(Now(c).s, step))
  {
    if h.oneHandler && step.Take? { assert !HasMarking(Now(c).s.tokens); }
    c' := Onward(c, Steps(step), System(s', Now(c).rows, Now(c).pending + multiset(StepWrites(Now(c).s, step))));
  }

  ghost predicate HasPopped(tokens: map<nat, Token>) {
    exists t :: t in tokens && tokens[t].phase.RetryPopped?
  }

  /** Until it is handled, a parked job that was taken up stays with the retry handler. */
  lemma PoppedStays(s: State, step: Step)
    requires Enabled(s, step) && !step.HandleRetry? && (HasPopped(s.tokens) || step.PopRetry?)
    ensures HasPopped(Apply(s, step).tokens)
  {
    var tokens' := Apply(s, step).tokens;
    if step.PopRetry? {
      assert step.tok in tokens' && tokens'[step.tok].phase.RetryPopped?;
    } else {
      var t :| t in s.tokens && s.tokens[t].phase.RetryPopped?;
      assert t in tokens' && tokens'[t] == s.tokens[t];
    }
  }

  /** Whatever the retry handler does, it has something to write. */
  lemma RetryWritesSomething(s: State, step: Step) returns (x: Write)
    requires Enabled(s, step) && step.HandleRetry?
    ensures x in StepWrites(s, step) && x.from == RetryHandler
  {
    var j := s.tokens[step.tok].job;
    var promoted := PromoteRetry(s.db, j, step.pick).1;
    x := if promoted == Some(j) then Write(RetryHandler, j, Queued) else Write(RetryHandler, j, Ready);
    assert promoted == Some(j) ==> j in Listed(promoted);
    assert promoted != Some(j) ==> j in [j];
  }

  lemma BeforeStep(g: Graph, h: Hypotheses, c: Course, step: Step) returns (c': Course)
    requires IsCourse(g, h, c) && IsPrompt(Now(c))
    ensures IsCourse(g, h, c') && RunOf(c') == RunOf(c) && Now(c').s == Now(c).s && IsPrompt(Now(c'))
    ensures IsOfRetryHandler(step) ==> forall x :: x in Now(c').pending ==> x.from != RetryHandler
    ensures !IsOfRetryHandler(step) ==> c' == c
  {
    if IsOfRetryHandler(step) {
      c' := LandAll(g, h, c, RetryHandler);
    } else {
      c' := c;
    }
  }

  lemma LandCompletions(g: Graph, h: Hypotheses, c: Course) returns (c': Course)
    requires IsCourse(g, h, c) && forall x :: x in Now(c).pending ==> x.from != Worker
    ensures IsCourse(g, h, c') && RunOf(c') == RunOf(c) && Now(c').s == Now(c).s && IsPrompt(Now(c'))
    ensures forall x :: x in Now(c).pending && x.from == RetryHandler ==> x in Now(c').pending
  {
    if HasMarking(Now(c).s.tokens) {
      c' := c;
    } else {
      c' := LandAll(g, h, c, CompletionHandler);
    }
  }

  lemma AfterStep(g: Graph, h: Hypotheses, c: Course) returns (c': Course)
    requires IsCourse(g, h, c)
    ensures IsCourse(g, h, c') && RunOf(c') == RunOf(c) && Now(c').s == Now(c).s && IsPrompt(Now(c'))
    ensures forall x :: x in Now(c).pending && x.from == RetryHandler ==> x in Now(c').pending
  {
    var c1 := LandAll(g, h, c, Worker);
    c' := LandCompletions(g, h, c1);
  }

  /** The retry handler writes before its next step, everybody else as soon as possible. */
  lemma DelayedStep(g: Graph, h: Hypotheses, c: Course, step: Step, s': State) returns (c': Course)
    requires IsCourse(g, h, c) && Next(h, Now(c).s, step, s') && IsPrompt(Now(c))
    ensures IsCourse(g, h, c') && RunOf(c') == Then(RunOf(c), step, s') && Now(c').s == s' && IsPrompt(Now(c'))
    ensures forall x :: x in Now(c).pending && x.from == RetryHandler && !IsOfRetryHandler(step) ==> x in Now(c').pending
    ensures forall x :: x in StepWrites(Now(c).s, step) && x.from == RetryHandler ==> x in Now(c').pending
  {
    var c0 := BeforeStep(g, h, c, step);
    var c1 := StepOn(g, h, c0, step, s');
    c' := AfterStep(g, h, c1);
  }

  /** Every run is that of a course in which the retry handler puts its last writes off. */
  lemma {:induction false} Delayed(g: Graph, h: Hypotheses, r: Run) returns (c: Course)
    requires IsRun(g, h, r)
    ensures IsCourse(g, h, c) && RunOf(c) == r && IsPrompt(Now(c))
    ensures HasRetry(r) ==> HasPopped(Last(r).tokens) || exists x :: x in Now(c).pending && x.from == RetryHandler
    ensures r.Then? ==> forall x :: x in StepWrites(Last(r.before), r.step) && x.from == RetryHandler ==> x in Now(c).pending
  {
    match r
    case Admitted(s) => c := Opened(System(s, Viewed(s.db.jobs), multiset{}));
    case Then(before, step, s') =>
      var c0 := Delayed(g, h, before);
      CourseIsRun(g, h, c0);
      c := DelayedStep(g, h, c0, step, s');
      if step.HandleRetry? {
        var x := RetryWritesSomething(Last(before), step);
      } else if HasPopped(Last(before).tokens) || step.PopRetry? {
        PoppedStays(Last(before), step);
      } else if HasRetry(before) {
        var x :| x in Now(c0).pending && x.from == RetryHandler;
      }
  }

  lemma AnotherOne(pending: multiset<Write>, x: Write) returns (y: Write)
    requires x in pending && pending != multiset{x}
    ensures y in pending && x in pending - multiset{y} && |pending - multiset{y}| < |pending|
  {
    var others := pending - multiset{x};
    assert pending == others + multiset{x};
    assert others != multiset{};
    y :| y in others;
  }

  /** The retry handler makes its writes, and `x` last. */
  lemma {:induction false} LandRetries(g: Graph, h: Hypotheses, c: Course, x: Write) returns (c': Course)
    requires IsCourse(g, h, c) && OnlyRetries(Now(c).pending) && x in Now(c).pending
    ensures IsCourse(g, h, c') && RunOf(c') == RunOf(c) && Now(c').s == Now(c).s && Now(c').pending == multiset{}
    ensures Overtaken(Trace(c'), x.job)
    ensures x.job in Now(c').rows ==> Now(c').rows[x.job] == x.status
    decreases |Now(c).pending|
  {
    if Now(c).pending == multiset{x} {
      c' := Land(g, h, c, x);
      OvertakenSnoc(Trace(c), x, x.job);
    } else {
      var y := AnotherOne(Now(c).pending, x);
      var c1 := Land(g, h, c, y);
      c' := LandRetries(g, h, c1, x);
    }
  }

  // ---------------------------------------------------------------- the law

  lemma OtherWriters(s: State, step: Step)
    requires Enabled(s, step) && !step.HandleRetry?
    ensures forall x :: x in StepWrites(s, step) ==> x.from != RetryHandler
  {
  }

  lemma OthersMove(h: Hypotheses, a: System, m: Move, b: System)
    requires NextMove(h, a, m, b) && (m.Steps? ==> !m.step.HandleRetry?)
    requires forall x :: x in a.pending ==> x.from != RetryHandler
    ensures forall x :: x in b.pending ==> x.from != RetryHandler
    ensures m.Lands? ==> m.write.from != RetryHandler
  {
    if m.Steps? { OtherWriters(a.s, m.step); }
  }

  /** Without retries the retry handler writes nothing. */
  lemma {:induction false} NoRetryNoWrite(g: Graph, h: Hypotheses, c: Course)
    requires IsCourse(g, h, c) && !HasRetry(RunOf(c))
    ensures forall x :: x in Now(c).pending ==> x.from != RetryHandler
    ensures forall x :: x in Trace(c) ==> x.from != RetryHandler
  {
    match c
    case Opened(_) =>
    case Onward(before, m, sys) =>
      NoRetryNoWrite(g, h, before);
      OthersMove(h, Now(before), m, sys);
  }

  lemma NeverOvertaken(g: Graph, h: Hypotheses, c: Course, j: JobId)
    requires IsCourse(g, h, c) && !HasRetry(RunOf(c))
    ensures !Overtaken(Trace(c), j)
  {
    NoRetryNoWrite(g, h, c);
    forall i | 0 <= i < |Trace(c)| ensures !IsLate(Trace(c), j, i) {
      assert Trace(c)[i] in Trace(c);
    }
  }

  /** In every order of the writes that the components allow, the table agrees in the end. */
  ghost predicate AgreesInEveryOrder(g: Graph, h: Hypotheses, r: Run) {
    forall c :: IsCourse(g, h, c) && RunOf(c) == r && Now(c).pending == multiset{} ==>
      Now(c).rows == Viewed(Last(r).db.jobs)
  }

  lemma OvertakenIsWrong(g: Graph, h: Hypotheses, c: Course, j: JobId)
    requires IsCourse(g, h, c) && h.oneHandler && IsOver(Now(c)) && Finished(g, Now(c).s) && j in g && Overtaken(Trace(c), j)
    ensures Now(c).rows != Viewed(Now(c).s.db.jobs)
  {
    TableAgreesIff(g, h, c);
  }

  lemma PendingIsOfJob(g: Graph, h: Hypotheses, c: Course, x: Write)
    requires IsCourse(g, h, c) && x in Now(c).pending
    ensures x.job in Now(c).s.db.jobs
  {
    CourseFits(g, h, c);
    assert WriteFits(Now(c).s, x);
  }

  lemma PromptInTheEnd(g: Graph, h: Hypotheses, c: Course)
    requires IsCourse(g, h, c) && IsPrompt(Now(c)) && Quiescent(Now(c).s)
    ensures Now(c).s.tokens == map[] && OnlyRetries(Now(c).pending)
  {
    CourseInv(g, h, c);
    QuiescentIsEmpty(Now(c).s);
  }

  /** Some order of the writes leaves a wrong row. */
  lemma RetryMayLeaveWrongRow(g: Graph, h: Hypotheses, r: Run) returns (c: Course)
    requires IsRun(g, h, r) && h.oneHandler && Quiescent(Last(r)) && Finished(g, Last(r)) && HasRetry(r)
    ensures IsCourse(g, h, c) && RunOf(c) == r && Now(c).pending == multiset{}
    ensures Now(c).rows != Viewed(Last(r).db.jobs)
  {
    var c0 := Delayed(g, h, r);
    CourseIsRun(g, h, c0);
    PromptInTheEnd(g, h, c0);
    var x :| x in Now(c0).pending;
    PendingIsOfJob(g, h, c0, x);
    c := LandRetries(g, h, c0, x);
    OvertakenIsWrong(g, h, c, x.job);
  }

  /** In particular the last thing the retry handler writes may be the last to land. */
  lemma WrongRow(g: Graph, h: Hypotheses, r: Run, x: Write) returns (c: Course)
    requires IsRun(g, h, r) && r.Then? && Quiescent(Last(r))
    requires x in StepWrites(Last(r.before), r.step) && x.from == RetryHandler
    ensures IsCourse(g, h, c) && Now(c).s == Last(r) && IsOver(Now(c))
    ensures x.job in Now(c).rows && Now(c).rows[x.job] == x.status
  {
    var c0 := Delayed(g, h, r);
    CourseIsRun(g, h, c0);
    PromptInTheEnd(g, h, c0);
    PendingIsOfJob(g, h, c0, x);
    c := LandRetries(g, h, c0, x);
    CourseFits(g, h, c);
  }

  /** With one completion handler, the table of a finished run is right in the end whatever the order
      of the writes if and only if the retry handler took up no job in it. */
  lemma AgreesInEveryOrderIff(g: Graph, h: Hypotheses, r: Run)
    requires IsRun(g, h, r) && h.oneHandler && Quiescent(Last(r)) && Finished(g, Last(r))
    ensures AgreesInEveryOrder(g, h, r) <==> !HasRetry(r)
  {
    if HasRetry(r) {
      var c := RetryMayLeaveWrongRow(g, h, r);
    } else {
      forall c | IsCourse(g, h, c) && RunOf(c) == r && Now(c).pending == multiset{}
        ensures Now(c).rows == Viewed(Last(r).db.jobs)
      {
        CourseIsRun(g, h, c);
        forall j | j in g ensures !Overtaken(Trace(c), j) { NeverOvertaken(g, h, c, j); }
        TableAgreesIff(g, h, c);
      }
    }
  }
}
