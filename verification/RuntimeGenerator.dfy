/** From an accepted request to the runtime data of the protocol's first state. */
module RuntimeGenerator {
  import opened Basics
  import opened Dag
  import opened Runtime
  import opened Protocol
  import opened Admission

  datatype Policy = Policy(
    maxJobs: int,
    maxJobSizeBytes: Int32,
    maxDependencies: int,
    maxPriority: Int32,
    maxJobRuntimeSec: int,
    maxRetries: int,
    maxRetryDelaySec: int,
    maxConcurrent: Int32,
    maxWorkflowRuntimeSec: int)

  /** Conversion of a signed 32-bit value to a 64-bit unsigned one. */
  function Unsigned64(x: Int32): nat {
    if x < 0 then x + 0x1_0000_0000_0000_0000 else x
  }

  function OrElse(o: Option<int>, default: int): int {
    match o case None => default case Some(v) => v
  }

  function PriorityOf(spec: JobSpec, p: Policy): Int32 {
    match spec.priority case None => p.maxPriority case Some(v) => v
  }

  predicate ObeysPolicy(spec: JobSpec, p: Policy) {
    && |spec.dependsOn| <= p.maxDependencies
    && PriorityOf(spec, p) <= p.maxPriority
    && OrElse(spec.timeoutSec, p.maxJobRuntimeSec) <= p.maxJobRuntimeSec
    && OrElse(spec.maxRetries, p.maxRetries) <= p.maxRetries
    && OrElse(spec.retryDelaySec, 0) <= p.maxRetryDelaySec
  }

  ghost predicate FitsPolicy(specs: seq<JobSpec>, p: Policy) {
    forall i :: 0 <= i < |specs| ==> ObeysPolicy(specs[i], p)
  }

  function JobOf(spec: JobSpec, p: Policy): Job {
    Job(if spec.dependsOn == [] then Ready else Pending, |spec.dependsOn|,
        PriorityOf(spec, p), 0, OrElse(spec.maxRetries, p.maxRetries),
        OrElse(spec.timeoutSec, p.maxJobRuntimeSec), None)
  }

  // ---------------------------------------------------------------- the ordered set of ready jobs

  datatype Ranked = Ranked(id: JobId, uuid: nat, priority: int)

  function RankedOf(spec: JobSpec, p: Policy): Ranked {
    Ranked(spec.id, spec.uuid, PriorityOf(spec, p))
  }

  predicate IsBefore(a: Ranked, b: Ranked) {
    a.priority > b.priority || (a.priority == b.priority && a.uuid < b.uuid)
  }

  ghost predicate Sorted(q: seq<Ranked>) {
    forall i, k :: 0 <= i < k < |q| ==> IsBefore(q[i], q[k])
  }

  /** Ordered-set insertion; an equivalent element stays as it is. */
  function Insert(q: seq<Ranked>, r: Ranked): seq<Ranked> {
    if q == [] then [r]
    else if IsBefore(r, q[0]) then [r] + q
    else if IsBefore(q[0], r) then [q[0]] + Insert(q[1..], r)
    else q
  }

  lemma {:induction false} InsertSorted(q: seq<Ranked>, r: Ranked)
    requires Sorted(q) && forall x :: x in q ==> x.uuid != r.uuid
    ensures Sorted(Insert(q, r)) && |Insert(q, r)| == |q| + 1
    ensures forall x :: x in Insert(q, r) <==> x in q || x == r
  {
    if q != [] {
      assert q == [q[0]] + q[1..];
      assert q[0] in q;
      if !IsBefore(r, q[0]) {
        InsertSorted(q[1..], r);
        var rest := Insert(q[1..], r);
        forall k | 0 <= k < |rest| ensures IsBefore(q[0], rest[k]) {
          assert rest[k] in rest;
        }
      }
    }
  }

  // ---------------------------------------------------------------- runtime records

  ghost predicate DistinctUuids(specs: seq<JobSpec>) {
    forall i, k :: 0 <= i < k < |specs| ==> specs[i].uuid != specs[k].uuid
  }

  ghost predicate RanksRootsOf(specs: seq<JobSpec>, p: Policy, ready: seq<Ranked>) {
    && Sorted(ready)
    && (forall x :: x in ready ==> exists i :: 0 <= i < |specs| && specs[i].dependsOn == [] && x == RankedOf(specs[i], p))
    && (forall i :: 0 <= i < |specs| && specs[i].dependsOn == [] ==> RankedOf(specs[i], p) in ready)
  }

  ghost predicate IsLastOfId(specs: seq<JobSpec>, i: nat)
    requires i < |specs|
  {
    forall k :: i < k < |specs| ==> specs[k].id != specs[i].id
  }

  /** The last record of an id wins. */
  ghost predicate RecordsLast(specs: seq<JobSpec>, p: Policy, infos: map<JobId, Job>) {
    && (forall i :: 0 <= i < |specs| ==> specs[i].id in infos)
    && (forall j :: j in infos ==> exists i :: 0 <= i < |specs| && specs[i].id == j)
    && (forall i {:trigger IsLastOfId(specs, i)} :: 0 <= i < |specs| && IsLastOfId(specs, i)
          ==> infos[specs[i].id] == JobOf(specs[i], p))
  }

  lemma RankNext(specs: seq<JobSpec>, i: nat, p: Policy, ready: seq<Ranked>)
    requires i < |specs| && DistinctUuids(specs) && RanksRootsOf(specs[..i], p, ready)
    ensures RanksRootsOf(specs[..i + 1], p,
                         if specs[i].dependsOn == [] then Insert(ready, RankedOf(specs[i], p)) else ready)
  {
    var r := RankedOf(specs[i], p);
    var before, after := specs[..i], specs[..i + 1];
    assert after == before + [specs[i]];
    forall x | x in ready ensures x.uuid != r.uuid && exists n :: 0 <= n < |after| && after[n].dependsOn == [] && x == RankedOf(after[n], p) {
      var n :| 0 <= n < |before| && before[n].dependsOn == [] && x == RankedOf(before[n], p);
      assert after[n] == before[n] == specs[n];
    }
    if specs[i].dependsOn == [] {
      InsertSorted(ready, r);
      assert after[i] == specs[i];
    }
  }

  lemma RecordNext(specs: seq<JobSpec>, spec: JobSpec, p: Policy, infos: map<JobId, Job>)
    requires RecordsLast(specs, p, infos)
    ensures RecordsLast(specs + [spec], p, infos[spec.id := JobOf(spec, p)])
  {
    var all, infos' := specs + [spec], infos[spec.id := JobOf(spec, p)];
    assert all[|specs|] == spec;
    forall j | j in infos && j != spec.id ensures exists n :: 0 <= n < |all| && all[n].id == j {
      var n :| 0 <= n < |specs| && specs[n].id == j;
      assert all[n].id == j;
    }
    forall n | 0 <= n < |all| && IsLastOfId(all, n) ensures infos'[all[n].id] == JobOf(all[n], p) {
      if n < |specs| {
        assert spec.id != all[n].id;
        forall k | n < k < |specs| ensures specs[k].id != specs[n].id { assert all[k] == specs[k]; }
        assert IsLastOfId(specs, n);
      }
    }
  }

  /** One runtime record per job and the ordered set of the jobs without dependencies; refuses
      the request exactly when some job exceeds the client's policy. */
  method BuildJobsRuntimeInfo(specs: seq<JobSpec>, p: Policy)
    returns (ok: bool, infos: map<JobId, Job>, ready: seq<Ranked>)
    requires DistinctUuids(specs)
    ensures ok <==> FitsPolicy(specs, p)
    ensures ok ==> RecordsLast(specs, p, infos) && RanksRootsOf(specs, p, ready)
  {
    infos, ready := map[], [];
    for i := 0 to |specs|
      invariant forall k :: 0 <= k < i ==> ObeysPolicy(specs[k], p)
      invariant RecordsLast(specs[..i], p, infos) && RanksRootsOf(specs[..i], p, ready)
    {
      RankNext(specs, i, p, ready);
      RecordNext(specs[..i], specs[i], p, infos);
      assert specs[..i] + [specs[i]] == specs[..i + 1];
      if |specs[i].dependsOn| == 0 { ready := Insert(ready, RankedOf(specs[i], p)); }
      if !ObeysPolicy(specs[i], p) { return false, infos, ready; }
      infos := infos[specs[i].id := JobOf(specs[i], p)];
    }
    assert specs[..|specs|] == specs;
    return true, infos, ready;
  }

  // ---------------------------------------------------------------- records and ranks of the graph

  /** Each job has its record: READY without dependencies, else PENDING on all of them. */
  ghost predicate Recorded(g: Graph, infos: map<JobId, Job>) {
    && infos.Keys == g.Keys && Unmixed(infos)
    && forall j {:trigger infos[j]} :: j in g ==>
         && infos[j].remaining == |g[j]| && infos[j].retryCount == 0 && infos[j].startTime.None?
         && infos[j].status == (if g[j] == {} then Ready else Pending)
         && -0x8000_0000 <= infos[j].priority < 0x8000_0000
  }

  ghost function Ids(q: seq<Ranked>): seq<JobId> {
    seq(|q|, i requires 0 <= i < |q| => q[i].id)
  }

  /** `ready` ranks the jobs without dependencies, each once, by their priority. */
  ghost predicate RanksRoots(g: Graph, infos: map<JobId, Job>, ready: seq<Ranked>) {
    && Sorted(ready) && NoDup(Ids(ready))
    && (forall j :: j in Ids(ready) <==> j in g && g[j] == {})
    && (forall i :: 0 <= i < |ready| ==> ready[i].id in infos && ready[i].priority == infos[ready[i].id].priority)
  }

  /** The schema bounds the priorities submitted from below and the policy bounds them from above
      by the priority that the other jobs take: if that one is negative, nobody has another. */
  lemma PoliciesDoNotMix(specs: seq<JobSpec>, p: Policy, infos: map<JobId, Job>)
    requires FitsPolicy(specs, p)
    requires forall j :: j in infos ==> exists i :: 0 <= i < |specs| && infos[j] == JobOf(specs[i], p)
    ensures Unmixed(infos)
  {
    forall j | j in infos ensures 0 <= infos[j].priority || infos[j].priority == p.maxPriority < 0
      ensures p.maxPriority < 0 ==> infos[j].priority == p.maxPriority
    {
      var i :| 0 <= i < |specs| && infos[j] == JobOf(specs[i], p);
      assert ObeysPolicy(specs[i], p);
    }
  }

  lemma EachRecorded(specs: seq<JobSpec>, p: Policy, infos: map<JobId, Job>)
    requires CleanUpTo(specs, |specs|) && RecordsLast(specs, p, infos)
    ensures forall i :: 0 <= i < |specs| ==> infos[specs[i].id] == JobOf(specs[i], p)
  {
    forall i | 0 <= i < |specs| ensures infos[specs[i].id] == JobOf(specs[i], p) {
      forall k | i < k < |specs| ensures specs[k].id != specs[i].id { assert !RepeatsId(specs, k); }
      assert IsLastOfId(specs, i);
    }
  }

  lemma RecordedUnmixed(specs: seq<JobSpec>, p: Policy, infos: map<JobId, Job>)
    requires CleanUpTo(specs, |specs|) && RecordsLast(specs, p, infos) && FitsPolicy(specs, p)
    ensures Unmixed(infos)
  {
    EachRecorded(specs, p, infos);
    forall j | j in infos ensures exists i :: 0 <= i < |specs| && infos[j] == JobOf(specs[i], p) {
      var i :| 0 <= i < |specs| && specs[i].id == j;
    }
    PoliciesDoNotMix(specs, p, infos);
  }

  lemma RecordedOf(g: Graph, specs: seq<JobSpec>, p: Policy, infos: map<JobId, Job>)
    requires CleanUpTo(specs, |specs|) && IsGraphOf(g, specs) && RecordsLast(specs, p, infos) && FitsPolicy(specs, p)
    ensures Recorded(g, infos)
    ensures forall i :: 0 <= i < |specs| ==> infos[specs[i].id] == JobOf(specs[i], p)
  {
    EachRecorded(specs, p, infos);
    RecordedUnmixed(specs, p, infos);
    forall j | j in g
      ensures j in infos && infos[j].remaining == |g[j]| && infos[j].retryCount == 0 && infos[j].startTime.None?
      ensures infos[j].status == (if g[j] == {} then Ready else Pending)
      ensures -0x8000_0000 <= infos[j].priority < 0x8000_0000
    {
      var i :| 0 <= i < |specs| && specs[i].id == j;
      ElemsCard(specs[i].dependsOn);
    }
    assert infos.Keys == g.Keys;
  }

  /** Every ranked job comes from a submitted job without dependencies. */
  lemma RankedOrigin(specs: seq<JobSpec>, p: Policy, ready: seq<Ranked>, n: nat) returns (i: nat)
    requires RanksRootsOf(specs, p, ready) && n < |ready|
    ensures i < |specs| && specs[i].dependsOn == [] && ready[n] == RankedOf(specs[i], p)
  {
    assert ready[n] in ready;
    i :| 0 <= i < |specs| && specs[i].dependsOn == [] && ready[n] == RankedOf(specs[i], p);
  }

  lemma RankedOnce(specs: seq<JobSpec>, p: Policy, ready: seq<Ranked>, a: nat, b: nat)
    requires CleanUpTo(specs, |specs|) && RanksRootsOf(specs, p, ready) && a < b < |ready|
    ensures ready[a].id != ready[b].id
  {
    var i := RankedOrigin(specs, p, ready, a);
    var k := RankedOrigin(specs, p, ready, b);
    assert IsBefore(ready[a], ready[b]);
    assert !RepeatsId(specs, i) && !RepeatsId(specs, k);
  }

  lemma RootIsRanked(g: Graph, specs: seq<JobSpec>, p: Policy, ready: seq<Ranked>, j: JobId)
    requires IsGraphOf(g, specs) && RanksRootsOf(specs, p, ready) && j in g && g[j] == {}
    ensures j in Ids(ready)
  {
    var i :| 0 <= i < |specs| && specs[i].id == j;
    EmptyElems(specs[i].dependsOn);
    var n :| 0 <= n < |ready| && ready[n] == RankedOf(specs[i], p);
    assert Ids(ready)[n] == j;
  }

  lemma RootsRanked(g: Graph, specs: seq<JobSpec>, p: Policy, infos: map<JobId, Job>, ready: seq<Ranked>)
    requires CleanUpTo(specs, |specs|) && IsGraphOf(g, specs) && RanksRootsOf(specs, p, ready)
    requires forall i :: 0 <= i < |specs| ==> specs[i].id in infos && infos[specs[i].id] == JobOf(specs[i], p)
    ensures RanksRoots(g, infos, ready)
  {
    var ids := Ids(ready);
    forall n | 0 <= n < |ready|
      ensures ids[n] in g && g[ids[n]] == {} && ready[n].id in infos && ready[n].priority == infos[ready[n].id].priority
    {
      var i := RankedOrigin(specs, p, ready, n);
    }
    forall j | j in g && g[j] == {} ensures j in ids {
      RootIsRanked(g, specs, p, ready, j);
    }
    forall a, b | 0 <= a < b < |ids| ensures ids[a] != ids[b] {
      RankedOnce(specs, p, ready, a, b);
    }
  }

  lemma EmptyElems<T>(s: seq<T>)
    ensures Elems(s) == {} <==> s == []
  {
    assert s != [] ==> s[0] in Elems(s);
  }

  // ---------------------------------------------------------------- the initial split

  function QueuedCount(ready: nat, p: Policy): nat {
    if ready <= Unsigned64(p.maxConcurrent) then ready else Unsigned64(p.maxConcurrent)
  }

  /** The members are the ranked jobs; the scores are their priorities as unsigned ints. */
  ghost predicate HasScores(z: Zset, q: seq<Ranked>) {
    && (forall j :: j in z <==> j in Ids(q))
    && (forall i :: 0 <= i < |q| ==> q[i].id in z && z[q[i].id] == Unsigned32(q[i].priority))
  }

  /** The first `n` ranked jobs are QUEUED, the others stay as they were. */
  ghost predicate QueuesFirst(infos: map<JobId, Job>, ready: seq<Ranked>, n: nat, jobs: map<JobId, Job>)
    requires n <= |ready|
  {
    && jobs.Keys == infos.Keys
    && forall j {:trigger jobs[j]} :: j in infos ==>
         jobs[j] == if j in Ids(ready[..n]) then infos[j].(status := Queued) else infos[j]
  }

  lemma ScoresNext(z: Zset, q: seq<Ranked>, i: nat, lo: nat)
    requires lo <= i < |q| && NoDup(Ids(q)) && HasScores(z, q[lo..i])
    ensures HasScores(z[q[i].id := Unsigned32(q[i].priority)], q[lo..i + 1])
  {
    var before, after := q[lo..i], q[lo..i + 1];
    assert after == before + [q[i]];
    assert Ids(after) == Ids(before) + [q[i].id];
    forall n | 0 <= n < |before| ensures before[n].id != q[i].id {
      assert Ids(q)[lo + n] == before[n].id && Ids(q)[i] == q[i].id;
    }
  }

  lemma QueueNext(infos: map<JobId, Job>, ready: seq<Ranked>, i: nat, jobs: map<JobId, Job>)
    requires i < |ready| && ready[i].id in infos && QueuesFirst(infos, ready, i, jobs) && NoDup(Ids(ready))
    ensures QueuesFirst(infos, ready, i + 1, jobs[ready[i].id := jobs[ready[i].id].(status := Queued)])
  {
    assert ready[..i + 1] == ready[..i] + [ready[i]];
    assert Ids(ready[..i + 1]) == Ids(ready[..i]) + [ready[i].id];
  }

  /** The loop over the ranked jobs: the first ones are queued, the others wait. */
  method SplitReady(infos: map<JobId, Job>, ready: seq<Ranked>, queuedSize: nat)
    returns (jobs: map<JobId, Job>, queue: Zset, waiting: Zset)
    requires queuedSize <= |ready| && NoDup(Ids(ready)) && forall i :: 0 <= i < |ready| ==> ready[i].id in infos
    ensures QueuesFirst(infos, ready, queuedSize, jobs)
    ensures HasScores(queue, ready[..queuedSize]) && HasScores(waiting, ready[queuedSize..])
  {
    jobs, queue, waiting := infos, map[], map[];
    var index := 0;
    for i := 0 to |ready|
      invariant index == if i < queuedSize then i else queuedSize
      invariant QueuesFirst(infos, ready, index, jobs)
      invariant HasScores(queue, ready[0..index])
      invariant HasScores(waiting, if i < queuedSize then [] else ready[queuedSize..i])
    {
      var r := ready[i];
      if index < queuedSize {
        QueueNext(infos, ready, i, jobs);
        ScoresNext(queue, ready, i, 0);
        index := index + 1;
        jobs := jobs[r.id := jobs[r.id].(status := Queued)];
        queue := queue[r.id := Unsigned32(r.priority)];
        assert index == queuedSize ==> ready[queuedSize..i + 1] == [];
      } else {
        ScoresNext(waiting, ready, i, queuedSize);
        waiting := waiting[r.id := Unsigned32(r.priority)];
      }
    }
    assert ready[queuedSize..|ready|] == ready[queuedSize..] && ready[0..queuedSize] == ready[..queuedSize];
  }

  /** The most urgent ready jobs fill the slots; the others wait. */
  method InitializeRuntimeData(ghost g: Graph, infos: map<JobId, Job>, ready: seq<Ranked>,
                               lists: map<JobId, seq<JobId>>, p: Policy, total: int)
    returns (db: Store)
    requires RanksRoots(g, infos, ready)
    ensures var n := QueuedCount(|ready|, p);
      && db.wf == Workflow(WfReady, total, p.maxConcurrent, n, total - |ready|, 0, 0, p.maxWorkflowRuntimeSec, None)
      && QueuesFirst(infos, ready, n, db.jobs) && db.successors == lists && db.retries == map[]
      && HasScores(db.queue, ready[..n]) && HasScores(db.waiting, ready[n..])
  {
    var queuedSize := Unsigned64(p.maxConcurrent);
    if |ready| <= queuedSize { queuedSize := |ready|; }
    var jobs, queue, waiting := SplitReady(infos, ready, queuedSize);
    db := Store(Workflow(WfReady, total, p.maxConcurrent, queuedSize, total - |ready|, 0, 0, p.maxWorkflowRuntimeSec, None),
                jobs, lists, waiting, queue, map[]);
  }

  // ---------------------------------------------------------------- admission yields an initial state

  /** What the generator has written, in terms of the graph. */
  ghost predicate Generated(g: Graph, infos: map<JobId, Job>, ready: seq<Ranked>, lists: map<JobId, seq<JobId>>, p: Policy, db: Store) {
    var n := QueuedCount(|ready|, p);
    && Recorded(g, infos) && RanksRoots(g, infos, ready) && ListsDependents(g, g.Keys, lists)
    && db.wf == Workflow(WfReady, |g|, p.maxConcurrent, n, |g| - |ready|, 0, 0, p.maxWorkflowRuntimeSec, None)
    && QueuesFirst(infos, ready, n, db.jobs) && db.successors == lists && db.retries == map[]
    && HasScores(db.queue, ready[..n]) && HasScores(db.waiting, ready[n..])
  }

  lemma SplitDistinct<T>(q: seq<T>, n: nat)
    requires n <= |q| && NoDup(q)
    ensures forall x :: x in q <==> x in q[..n] || x in q[n..]
    ensures forall x :: x in q[..n] ==> x !in q[n..]
    ensures NoDup(q[..n])
  {
    assert q == q[..n] + q[n..];
    forall a, b | 0 <= a < n && 0 <= b < |q| - n ensures q[..n][a] != q[n..][b] {
      assert q[n..][b] == q[n + b];
    }
  }

  lemma IdsSplit(q: seq<Ranked>, n: nat)
    requires n <= |q| && NoDup(Ids(q))
    ensures forall j :: j in Ids(q) <==> j in Ids(q[..n]) || j in Ids(q[n..])
    ensures forall j :: j in Ids(q[..n]) ==> j !in Ids(q[n..])
    ensures NoDup(Ids(q[..n]))
  {
    assert Ids(q)[..n] == Ids(q[..n]) && Ids(q)[n..] == Ids(q[n..]);
    SplitDistinct(Ids(q), n);
  }

  /** The statuses after the split. */
  lemma GeneratedStatus(g: Graph, infos: map<JobId, Job>, ready: seq<Ranked>, p: Policy, db: Store, j: JobId)
    requires Recorded(g, infos) && RanksRoots(g, infos, ready) && j in g
    requires QueuesFirst(infos, ready, QueuedCount(|ready|, p), db.jobs)
    ensures var n := QueuedCount(|ready|, p);
      && j in db.jobs
      && db.jobs[j] == infos[j].(status := db.jobs[j].status)
      && (db.jobs[j].status == Queued <==> j in Ids(ready[..n]))
      && (db.jobs[j].status == Ready <==> j in Ids(ready[n..]))
      && (db.jobs[j].status == Pending <==> g[j] != {})
      && InitialJob(g, j, db.jobs[j])
  {
    IdsSplit(ready, QueuedCount(|ready|, p));
  }

  lemma GeneratedSets(g: Graph, infos: map<JobId, Job>, ready: seq<Ranked>, p: Policy, db: Store)
    requires Recorded(g, infos) && RanksRoots(g, infos, ready)
    requires QueuesFirst(infos, ready, QueuedCount(|ready|, p), db.jobs)
    ensures var n := QueuedCount(|ready|, p);
      && WithStatus(db.jobs, Queued) == Elems(Ids(ready[..n]))
      && WithStatus(db.jobs, Ready) == Elems(Ids(ready[n..]))
      && WithStatus(db.jobs, Pending) == g.Keys - Elems(Ids(ready))
  {
    var n := QueuedCount(|ready|, p);
    IdsSplit(ready, n);
    forall j | j in g
      ensures j in WithStatus(db.jobs, Queued) <==> j in Ids(ready[..n])
      ensures j in WithStatus(db.jobs, Ready) <==> j in Ids(ready[n..])
      ensures j in WithStatus(db.jobs, Pending) <==> j !in Ids(ready)
    {
      GeneratedStatus(g, infos, ready, p, db, j);
    }
  }

  lemma GeneratedCounts(g: Graph, infos: map<JobId, Job>, ready: seq<Ranked>, n: nat)
    requires RanksRoots(g, infos, ready) && n <= |ready|
    ensures |Elems(Ids(ready[..n]))| == n && |g.Keys - Elems(Ids(ready))| == |g| - |ready|
    ensures Elems(Ids(ready[n..])) != {} ==> n < |ready|
  {
    IdsSplit(ready, n);
    ElemsCard(Ids(ready[..n]));
    ElemsCard(Ids(ready));
    DifferenceCard(g.Keys, Elems(Ids(ready)));
  }

  lemma ScoresFromPriorities(g: Graph, infos: map<JobId, Job>, ready: seq<Ranked>, part: seq<Ranked>, lo: nat, z: Zset, db: Store, st: JobStatus)
    requires RanksRoots(g, infos, ready) && HasScores(z, part) && lo + |part| <= |ready| && part == ready[lo..lo + |part|]
    requires WithStatus(db.jobs, st) == Elems(Ids(part))
    requires forall j :: j in infos ==> j in db.jobs && db.jobs[j].priority == infos[j].priority
    ensures z == map j | j in WithStatus(db.jobs, st) :: Unsigned32(db.jobs[j].priority)
  {
    forall j | j in z ensures j in WithStatus(db.jobs, st) && z[j] == Unsigned32(db.jobs[j].priority) {
      var i :| 0 <= i < |part| && Ids(part)[i] == j;
      assert part[i] == ready[lo + i];
    }
  }

  lemma SplitByPriority(g: Graph, infos: map<JobId, Job>, ready: seq<Ranked>, n: nat, j: JobId, k: JobId)
    requires RanksRoots(g, infos, ready) && n <= |ready| && j in Ids(ready[..n]) && k in Ids(ready[n..])
    ensures j in infos && k in infos && infos[k].priority <= infos[j].priority
  {
    var a :| 0 <= a < n && Ids(ready[..n])[a] == j;
    var b :| 0 <= b < |ready| - n && Ids(ready[n..])[b] == k;
    assert ready[..n][a] == ready[a] && ready[n..][b] == ready[n + b];
    assert IsBefore(ready[a], ready[n + b]);
  }

  /** A non-empty acyclic graph has a job without dependencies. */
  lemma SomethingIsReady(g: Graph, infos: map<JobId, Job>, ready: seq<Ranked>)
    requires Closed(g) && Acyclic(g) && g != map[] && RanksRoots(g, infos, ready)
    ensures ready != []
  {
    if ready == [] {
      forall j | j in g.Keys ensures DependsInto(g, j, g.Keys) {
        assert j !in Ids(ready);
        var d :| d in g[j];
      }
      TrappedSetHasCycle(g, g.Keys);
    }
  }

  lemma GeneratedSuccessors(g: Graph, db: Store, k: JobId)
    requires ListsDependents(g, g.Keys, db.successors) && k in g
    ensures ListsSuccessors(g, db, k)
  {
    assert IsListOf(g, g.Keys, k, db.successors[k]);
  }

  lemma GeneratedZsets(g: Graph, infos: map<JobId, Job>, ready: seq<Ranked>, lists: map<JobId, seq<JobId>>, p: Policy, db: Store)
    requires Generated(g, infos, ready, lists, p, db)
    ensures db.queue == map j | j in WithStatus(db.jobs, Queued) :: Unsigned32(db.jobs[j].priority)
    ensures db.waiting == map j | j in WithStatus(db.jobs, Ready) :: Unsigned32(db.jobs[j].priority)
  {
    var n := QueuedCount(|ready|, p);
    GeneratedSets(g, infos, ready, p, db);
    assert ready[..n] == ready[0..0 + |ready[..n]|] && ready[n..] == ready[n..n + |ready[n..]|];
    ScoresFromPriorities(g, infos, ready, ready[..n], 0, db.queue, db, Queued);
    ScoresFromPriorities(g, infos, ready, ready[n..], n, db.waiting, db, Ready);
  }

  lemma GeneratedOrder(g: Graph, infos: map<JobId, Job>, ready: seq<Ranked>, p: Policy, db: Store, j: JobId, k: JobId)
    requires Recorded(g, infos) && RanksRoots(g, infos, ready)
    requires QueuesFirst(infos, ready, QueuedCount(|ready|, p), db.jobs)
    requires j in WithStatus(db.jobs, Queued) && k in WithStatus(db.jobs, Ready)
    ensures db.jobs[k].priority <= db.jobs[j].priority
  {
    GeneratedSets(g, infos, ready, p, db);
    SplitByPriority(g, infos, ready, QueuedCount(|ready|, p), j, k);
    assert db.jobs[j].priority == infos[j].priority && db.jobs[k].priority == infos[k].priority;
  }

  ghost function ListsNaming(lists: map<JobId, seq<JobId>>, j: JobId): set<JobId> {
    set k | k in lists && j in lists[k]
  }

  /** The two encodings of the graph agree: a job waits for as many dependencies as there are
      successor lists that name it, and each of those names it once. */
  lemma EncodingsAgree(g: Graph, infos: map<JobId, Job>, lists: map<JobId, seq<JobId>>, j: JobId)
    requires Closed(g) && Recorded(g, infos) && ListsDependents(g, g.Keys, lists) && j in g
    ensures infos[j].remaining == |ListsNaming(lists, j)| && ListsNaming(lists, j) == g[j]
    ensures forall k :: k in lists ==> NoDup(lists[k])
  {
    forall k | k in g ensures NoDup(lists[k]) && (j in lists[k] <==> k in g[j]) {
      assert IsListOf(g, g.Keys, k, lists[k]);
    }
    assert ListsNaming(lists, j) == g[j];
  }

  /** With a limit that is not negative the split fills the slots. */
  lemma GeneratedFillsSlots(g: Graph, infos: map<JobId, Job>, ready: seq<Ranked>, lists: map<JobId, seq<JobId>>, p: Policy, db: Store)
    requires Generated(g, infos, ready, lists, p, db) && 0 <= p.maxConcurrent
    ensures db.wf.pending == |WithStatus(db.jobs, Pending)|
    ensures db.wf.reserved == |WithStatus(db.jobs, Queued)| <= db.wf.maxConcurrent
    ensures WithStatus(db.jobs, Ready) != {} ==> db.wf.reserved == db.wf.maxConcurrent
  {
    GeneratedSets(g, infos, ready, p, db);
    GeneratedCounts(g, infos, ready, QueuedCount(|ready|, p));
  }

  /** With a negative limit more slots are reserved than there are. */
  lemma GeneratedOverflows(g: Graph, infos: map<JobId, Job>, ready: seq<Ranked>, lists: map<JobId, seq<JobId>>, p: Policy, db: Store)
    requires Closed(g) && Acyclic(g) && g != map[] && Generated(g, infos, ready, lists, p, db) && p.maxConcurrent < 0
    ensures db.wf.maxConcurrent < db.wf.reserved
  {
    SomethingIsReady(g, infos, ready);
  }

  lemma GeneratedUnmixed(g: Graph, infos: map<JobId, Job>, ready: seq<Ranked>, n: nat, jobs: map<JobId, Job>)
    requires Recorded(g, infos) && n <= |ready| && QueuesFirst(infos, ready, n, jobs)
    ensures Unmixed(jobs)
  {
    forall j | j in jobs ensures jobs[j].priority == infos[j].priority {
    }
  }

  lemma GeneratedPointwise(g: Graph, infos: map<JobId, Job>, ready: seq<Ranked>, lists: map<JobId, seq<JobId>>, p: Policy, db: Store)
    requires Generated(g, infos, ready, lists, p, db)
    ensures db.jobs.Keys == g.Keys
    ensures forall j {:trigger InitialJob(g, j, db.jobs[j])} :: j in g ==> InitialJob(g, j, db.jobs[j])
    ensures forall k {:trigger ListsSuccessors(g, db, k)} :: k in g ==> ListsSuccessors(g, db, k)
    ensures forall j, k {:trigger RankedFor(db.jobs, j, k)} :: j in db.jobs && k in db.jobs ==> RankedFor(db.jobs, j, k)
  {
    forall j | j in g ensures j in db.jobs && InitialJob(g, j, db.jobs[j]) {
      GeneratedStatus(g, infos, ready, p, db, j);
    }
    forall k | k in g ensures ListsSuccessors(g, db, k) {
      GeneratedSuccessors(g, db, k);
    }
    forall j, k | j in db.jobs && k in db.jobs ensures RankedFor(db.jobs, j, k) {
      if j in WithStatus(db.jobs, Queued) && k in WithStatus(db.jobs, Ready) {
        GeneratedOrder(g, infos, ready, p, db, j, k);
      }
    }
  }

  lemma GeneratedFits(g: Graph, infos: map<JobId, Job>, ready: seq<Ranked>, lists: map<JobId, seq<JobId>>,
                      p: Policy, db: Store, roster: seq<JobId>)
    requires Closed(g) && Acyclic(g) && g != map[] && Generated(g, infos, ready, lists, p, db) && 0 <= p.maxConcurrent
    requires NoDup(roster) && Elems(roster) == g.Keys
    ensures Initial(g, State(db, map[], roster, 0))
  {
    GeneratedPointwise(g, infos, ready, lists, p, db);
    GeneratedUnmixed(g, infos, ready, QueuedCount(|ready|, p), db.jobs);
    GeneratedZsets(g, infos, ready, lists, p, db);
    GeneratedFillsSlots(g, infos, ready, lists, p, db);
  }

  /** The runtime data of an accepted workflow is an initial state of the protocol if and only if
      the policy's concurrency limit is not negative: converted to an unsigned size, a negative
      limit queues every ready job. */
  lemma GeneratedIsInitial(g: Graph, infos: map<JobId, Job>, ready: seq<Ranked>, lists: map<JobId, seq<JobId>>,
                           p: Policy, db: Store, roster: seq<JobId>)
    requires Closed(g) && Acyclic(g) && g != map[] && Generated(g, infos, ready, lists, p, db)
    requires NoDup(roster) && Elems(roster) == g.Keys
    ensures Initial(g, State(db, map[], roster, 0)) <==> 0 <= p.maxConcurrent
  {
    if 0 <= p.maxConcurrent {
      GeneratedFits(g, infos, ready, lists, p, db, roster);
    } else {
      GeneratedOverflows(g, infos, ready, lists, p, db);
    }
  }

  // ---------------------------------------------------------------- the whole admission

  /** Job count and job sizes; the sizes are compared unsigned. */
  method ValidatePolicy(specs: seq<JobSpec>, p: Policy) returns (verdict: Verdict)
    ensures verdict == if |specs| > p.maxJobs then Rejected(JobCountExceeded)
                       else if specs == [] then Rejected(JobCountZero)
                       else if exists i :: 0 <= i < |specs| && specs[i].sizeBytes > Unsigned64(p.maxJobSizeBytes)
                       then Rejected(JobSizeExceeded) else Accepted
  {
    if |specs| > p.maxJobs { return Rejected(JobCountExceeded); }
    if |specs| == 0 { return Rejected(JobCountZero); }
    for i := 0 to |specs|
      invariant forall k :: 0 <= k < i ==> specs[k].sizeBytes <= Unsigned64(p.maxJobSizeBytes)
    {
      if specs[i].sizeBytes > Unsigned64(p.maxJobSizeBytes) { return Rejected(JobSizeExceeded); }
    }
    return Accepted;
  }

  ghost predicate SizesFit(specs: seq<JobSpec>, p: Policy) {
    forall i :: 0 <= i < |specs| ==> specs[i].sizeBytes <= Unsigned64(p.maxJobSizeBytes)
  }

  /** The submitted dependencies name submitted jobs and form no cycle. */
  ghost predicate IsDag(specs: seq<JobSpec>) {
    exists g :: IsGraphOf(g, specs) && Closed(g) && Acyclic(g)
  }

  ghost predicate IsValid(specs: seq<JobSpec>, p: Policy) {
    && 1 <= |specs| <= p.maxJobs && SizesFit(specs, p)
    && CleanUpTo(specs, |specs|) && IsDag(specs)
  }

  lemma GraphIsUnique(g: Graph, g': Graph, specs: seq<JobSpec>)
    requires IsGraphOf(g, specs) && IsGraphOf(g', specs)
    ensures g == g'
  {
    forall j | j in g ensures j in g' && g'[j] == g[j] {
      var i :| 0 <= i < |specs| && specs[i].id == j;
    }
    assert g.Keys == g'.Keys;
  }

  lemma DagByItsGraph(g: Graph, specs: seq<JobSpec>)
    requires IsGraphOf(g, specs)
    ensures IsDag(specs) <==> Closed(g) && Acyclic(g)
  {
    forall g' | IsGraphOf(g', specs) ensures g' == g {
      GraphIsUnique(g', g, specs);
    }
  }

  method ValidateWorkflow(specs: seq<JobSpec>, p: Policy)
    returns (verdict: Verdict, g: Graph, lists: map<JobId, seq<JobId>>)
    ensures verdict.Accepted? <==> IsValid(specs, p)
    ensures verdict.Accepted? ==> IsGraphOf(g, specs) && |g| == |specs| && Closed(g) && Acyclic(g)
    ensures verdict.Accepted? ==> ListsDependents(g, g.Keys, lists)
    ensures verdict != Rejected(JobPolicyViolation)
  {
    g, lists := map[], map[];
    verdict := ValidatePolicy(specs, p);
    if verdict.Rejected? { return; }
    verdict, g := ValidateSemantic(specs);
    if verdict.Rejected? { return; }
    ghost var order;
    verdict, lists, order := ValidateDependencies(g);
    DagByItsGraph(g, specs);
  }

  /** Whatever the order of the durable job list, `db` starts the protocol if and only if the
      concurrency limit is not negative. */
  ghost predicate StartsTheProtocol(g: Graph, db: Store, p: Policy) {
    && db.wf.maxConcurrent == p.maxConcurrent
    && forall roster :: NoDup(roster) && Elems(roster) == g.Keys ==>
         (Initial(g, State(db, map[], roster, 0)) <==> 0 <= p.maxConcurrent)
  }

  lemma GeneratedStarts(g: Graph, infos: map<JobId, Job>, ready: seq<Ranked>, lists: map<JobId, seq<JobId>>, p: Policy, db: Store)
    requires Closed(g) && Acyclic(g) && g != map[] && Generated(g, infos, ready, lists, p, db)
    ensures StartsTheProtocol(g, db, p)
  {
    forall roster | NoDup(roster) && Elems(roster) == g.Keys
      ensures Initial(g, State(db, map[], roster, 0)) <==> 0 <= p.maxConcurrent
    {
      GeneratedIsInitial(g, infos, ready, lists, p, db, roster);
    }
  }

  lemma RecordedAndRanked(g: Graph, specs: seq<JobSpec>, p: Policy, infos: map<JobId, Job>, ready: seq<Ranked>)
    requires specs != [] && CleanUpTo(specs, |specs|) && IsGraphOf(g, specs)
    requires RecordsLast(specs, p, infos) && RanksRootsOf(specs, p, ready) && FitsPolicy(specs, p)
    ensures Recorded(g, infos) && RanksRoots(g, infos, ready) && g != map[]
  {
    RecordedOf(g, specs, p, infos);
    RootsRanked(g, specs, p, infos, ready);
    assert specs[0].id in g;
  }

  method GenerateRuntime(specs: seq<JobSpec>, p: Policy, ghost g: Graph, infos: map<JobId, Job>,
                         ready: seq<Ranked>, lists: map<JobId, seq<JobId>>)
    returns (db: Store)
    requires specs != [] && CleanUpTo(specs, |specs|) && IsGraphOf(g, specs) && |g| == |specs| && Closed(g) && Acyclic(g)
    requires RecordsLast(specs, p, infos) && RanksRootsOf(specs, p, ready) && ListsDependents(g, g.Keys, lists)
    requires FitsPolicy(specs, p)
    ensures StartsTheProtocol(g, db, p)
  {
    RecordedAndRanked(g, specs, p, infos, ready);
    db := InitializeRuntimeData(g, infos, ready, lists, p, |specs|);
    GeneratedStarts(g, infos, ready, lists, p, db);
  }

  /** Admission accepts exactly the requests within the policy that repeat nothing and form a
      dag, and what it then writes starts the protocol. */
  method Admit(specs: seq<JobSpec>, p: Policy) returns (verdict: Verdict, g: Graph, db: Option<Store>)
    requires DistinctUuids(specs)
    ensures verdict.Accepted? <==> FitsPolicy(specs, p) && IsValid(specs, p)
    ensures verdict == Rejected(JobPolicyViolation) <==> !FitsPolicy(specs, p)
    ensures verdict.Accepted? <==> db.Some?
    ensures db.Some? ==> IsGraphOf(g, specs) && StartsTheProtocol(g, db.value, p)
  {
    g, db := map[], None;
    var fits, infos, ready := BuildJobsRuntimeInfo(specs, p);
    if !fits { return Rejected(JobPolicyViolation), g, db; }
    var lists;
    verdict, g, lists := ValidateWorkflow(specs, p);
    if verdict.Accepted? {
      var store := GenerateRuntime(specs, p, g, infos, ready, lists);
      db := Some(store);
    }
  }
}
