/** Validation of a submitted workflow: duplicate checks and the dependency check, which runs
    Kahn's algorithm and builds the successor lists on the way. */
module Admission {
  import opened Basics
  import opened Dag

  /** The job priorities that the request schema lets through. */
  type SchemaPriority = x: int | 0 <= x <= 10

  /** One job of a request that fits the schema; absent fields take the client policy's value. */
  datatype JobSpec = JobSpec(
    id: JobId,
    dependsOn: seq<JobId>,
    priority: Option<SchemaPriority>,
    timeoutSec: Option<int>,
    maxRetries: Option<int>,
    retryDelaySec: Option<int>,
    sizeBytes: nat,
    uuid: nat)

  datatype Reason =
    | JobPolicyViolation | JobCountExceeded | JobCountZero | JobSizeExceeded
    | DuplicateDependency | DuplicateJobId | MissingDependency | CircularDependency

  datatype Verdict = Accepted | Rejected(reason: Reason)

  // ---------------------------------------------------------------- duplicates

  ghost predicate RepeatsId(specs: seq<JobSpec>, i: nat)
    requires i < |specs|
  {
    exists k :: 0 <= k < i && specs[k].id == specs[i].id
  }

  /** The first `n` jobs repeat no dependency and no id. */
  ghost predicate CleanUpTo(specs: seq<JobSpec>, n: nat)
    requires n <= |specs|
  {
    forall i :: 0 <= i < n ==> NoDup(specs[i].dependsOn) && !RepeatsId(specs, i)
  }

  /** Job `i` is the first to offend, and `reason` is its offence. */
  ghost predicate IsFirstOffence(specs: seq<JobSpec>, i: nat, reason: Reason)
    requires i < |specs|
  {
    && CleanUpTo(specs, i)
    && if NoDup(specs[i].dependsOn) then RepeatsId(specs, i) && reason == DuplicateJobId
       else reason == DuplicateDependency
  }

  ghost predicate IsGraphOf(g: Graph, specs: seq<JobSpec>) {
    && (forall j :: j in g <==> exists i :: 0 <= i < |specs| && specs[i].id == j)
    && (forall i :: 0 <= i < |specs| ==> specs[i].id in g && g[specs[i].id] == Elems(specs[i].dependsOn))
  }

  method CollectDependencies(deps: seq<JobId>) returns (ok: bool, all: set<JobId>)
    ensures ok <==> NoDup(deps)
    ensures ok ==> all == Elems(deps)
  {
    all := {};
    for i := 0 to |deps|
      invariant NoDup(deps[..i]) && all == Elems(deps[..i])
    {
      if deps[i] in all {
        assert deps[i] in Elems(deps[..i]);
        return false, all;
      }
      assert deps[..i + 1] == deps[..i] + [deps[i]];
      NoDupSnoc(deps[..i], deps[i]);
      all := all + {deps[i]};
    }
    assert deps[..|deps|] == deps;
    return true, all;
  }

  /** Accepts exactly the requests without repetitions; else names the first offence, a repeated
      dependency before a repeated id. */
  method ValidateSemantic(specs: seq<JobSpec>) returns (verdict: Verdict, g: Graph)
    ensures verdict.Accepted? <==> CleanUpTo(specs, |specs|)
    ensures verdict.Accepted? ==> IsGraphOf(g, specs) && |g| == |specs|
    ensures verdict.Rejected? ==> exists i :: 0 <= i < |specs| && IsFirstOffence(specs, i, verdict.reason)
  {
    g := map[];
    for i := 0 to |specs|
      invariant CleanUpTo(specs, i) && IsGraphOf(g, specs[..i]) && |g| == i
    {
      var id := specs[i].id;
      var ok, deps := CollectDependencies(specs[i].dependsOn);
      if !ok {
        assert IsFirstOffence(specs, i, DuplicateDependency);
        return Rejected(DuplicateDependency), g;
      }
      KnownIdRepeats(g, specs, i);
      if id in g {
        assert IsFirstOffence(specs, i, DuplicateJobId);
        return Rejected(DuplicateJobId), g;
      }
      GraphSnoc(g, specs[..i], specs[i]);
      assert specs[..i + 1] == specs[..i] + [specs[i]];
      g := g[id := deps];
    }
    assert specs[..|specs|] == specs;
    return Accepted, g;
  }

  lemma KnownIdRepeats(g: Graph, specs: seq<JobSpec>, i: nat)
    requires i < |specs| && IsGraphOf(g, specs[..i])
    ensures specs[i].id in g <==> RepeatsId(specs, i)
  {
    assert forall k :: 0 <= k < i ==> specs[..i][k].id in g;
  }

  lemma GraphSnoc(g: Graph, specs: seq<JobSpec>, spec: JobSpec)
    requires IsGraphOf(g, specs) && spec.id !in g
    ensures IsGraphOf(g[spec.id := Elems(spec.dependsOn)], specs + [spec])
  {
    var all := specs + [spec];
    assert all[|specs|] == spec;
    forall i | 0 <= i < |specs| ensures all[i] == specs[i] && specs[i].id != spec.id {}
    forall j | j in g ensures exists i :: 0 <= i < |all| && all[i].id == j {
      var i :| 0 <= i < |specs| && specs[i].id == j;
      assert all[i].id == j;
    }
  }

  // ---------------------------------------------------------------- edges and successor lists

  /** `list` names each job of `from` that depends on `k`, once. */
  ghost predicate IsListOf(g: Graph, from: set<JobId>, k: JobId, list: seq<JobId>) {
    NoDup(list) && forall x :: x in list <==> x in from && x in g && k in g[x]
  }

  ghost predicate ListsDependents(g: Graph, from: set<JobId>, lists: map<JobId, seq<JobId>>) {
    && lists.Keys == g.Keys
    && forall k {:trigger IsListOf(g, from, k, lists[k])} :: k in g ==> IsListOf(g, from, k, lists[k])
  }

  /** Edges from `j` to the dependencies `deps`, on top of those from the jobs in `from`. */
  ghost predicate IsPartOf(g: Graph, from: set<JobId>, j: JobId, deps: set<JobId>, k: JobId, list: seq<JobId>) {
    NoDup(list) && forall x :: x in list <==> (x in from && x in g && k in g[x]) || (x == j && k in deps)
  }

  ghost predicate ListsPartly(g: Graph, from: set<JobId>, j: JobId, deps: set<JobId>, lists: map<JobId, seq<JobId>>) {
    && lists.Keys == g.Keys
    && forall k {:trigger IsPartOf(g, from, j, deps, k, lists[k])} :: k in g ==> IsPartOf(g, from, j, deps, k, lists[k])
  }

  lemma NoEdgesYet(g: Graph, from: set<JobId>, j: JobId, lists: map<JobId, seq<JobId>>)
    requires ListsDependents(g, from, lists)
    ensures ListsPartly(g, from, j, {}, lists)
  {
    forall k | k in g ensures IsPartOf(g, from, j, {}, k, lists[k]) {
      assert IsListOf(g, from, k, lists[k]);
    }
  }

  lemma AllEdgesAdded(g: Graph, from: set<JobId>, j: JobId, lists: map<JobId, seq<JobId>>)
    requires j in g && ListsPartly(g, from, j, g[j], lists)
    ensures ListsDependents(g, from + {j}, lists)
  {
    forall k | k in g ensures IsListOf(g, from + {j}, k, lists[k]) {
      assert IsPartOf(g, from, j, g[j], k, lists[k]);
    }
  }

  lemma AddEdge(g: Graph, from: set<JobId>, j: JobId, deps: set<JobId>, lists: map<JobId, seq<JobId>>, d: JobId)
    requires ListsPartly(g, from, j, deps, lists) && j !in from && d in g && d !in deps
    ensures ListsPartly(g, from, j, deps + {d}, lists[d := lists[d] + [j]])
    ensures Elems(lists[d] + [j]) == Elems(lists[d]) + {j}
  {
    assert IsPartOf(g, from, j, deps, d, lists[d]);
    NoDupSnoc(lists[d], j);
    var lists' := lists[d := lists[d] + [j]];
    forall k | k in g ensures IsPartOf(g, from, j, deps + {d}, k, lists'[k]) {
      assert IsPartOf(g, from, j, deps, k, lists[k]);
    }
  }

  /** The edge sets of the visit hold what the successor lists hold. */
  ghost predicate SameEdges(outgoing: map<JobId, set<JobId>>, lists: map<JobId, seq<JobId>>) {
    outgoing.Keys == lists.Keys && forall k :: k in lists ==> outgoing[k] == Elems(lists[k])
  }

  /** The edges of one job; stops at a dependency that is not defined. */
  method AddEdges(g: Graph, j: JobId, ghost from: set<JobId>,
                  outgoing0: map<JobId, set<JobId>>, lists0: map<JobId, seq<JobId>>)
    returns (ok: bool, outgoing: map<JobId, set<JobId>>, lists: map<JobId, seq<JobId>>)
    requires j in g && j !in from && ListsDependents(g, from, lists0) && SameEdges(outgoing0, lists0)
    ensures ok <==> g[j] <= g.Keys
    ensures ok ==> ListsDependents(g, from + {j}, lists) && SameEdges(outgoing, lists)
  {
    outgoing, lists := outgoing0, lists0;
    var todo := g[j];
    NoEdgesYet(g, from, j, lists);
    assert g[j] - todo == {};
    while todo != {}
      invariant todo <= g[j] && g[j] - todo <= g.Keys
      invariant ListsPartly(g, from, j, g[j] - todo, lists) && SameEdges(outgoing, lists)
      decreases todo
    {
      var d :| d in todo;
      if d !in g { return false, outgoing, lists; }
      AddEdge(g, from, j, g[j] - todo, lists, d);
      assert g[j] - (todo - {d}) == (g[j] - todo) + {d};
      outgoing := outgoing[d := outgoing[d] + {j}];
      lists := lists[d := lists[d] + [j]];
      todo := todo - {d};
    }
    assert g[j] - todo == g[j];
    AllEdgesAdded(g, from, j, lists);
    return true, outgoing, lists;
  }

  // ---------------------------------------------------------------- Kahn's algorithm

  /** What the edge loop leaves behind: `queue` holds the jobs without dependencies. */
  ghost predicate QueuesRoots(g: Graph, from: set<JobId>, queue: seq<JobId>) {
    NoDup(queue) && forall j :: j in queue <==> j in from && j in g && g[j] == {}
  }

  lemma RootsStep(g: Graph, done: set<JobId>, j: JobId, queue: seq<JobId>)
    requires QueuesRoots(g, done, queue) && j in g && j !in done
    ensures QueuesRoots(g, done + {j}, if g[j] == {} then queue + [j] else queue)
  {
    NoDupSnoc(queue, j);
  }

  method BuildEdges(g: Graph)
    returns (ok: bool, outgoing: map<JobId, set<JobId>>, lists: map<JobId, seq<JobId>>, queue: seq<JobId>)
    ensures ok <==> Closed(g)
    ensures ok ==> ListsDependents(g, g.Keys, lists) && SameEdges(outgoing, lists) && QueuesRoots(g, g.Keys, queue)
  {
    outgoing := map j | j in g :: {};
    lists := map j | j in g :: [];
    queue := [];
    var todo := g.Keys;
    while todo != {}
      invariant todo <= g.Keys
      invariant forall j :: j in g && j !in todo ==> g[j] <= g.Keys
      invariant ListsDependents(g, g.Keys - todo, lists) && SameEdges(outgoing, lists)
      invariant QueuesRoots(g, g.Keys - todo, queue)
      decreases todo
    {
      var j :| j in todo;
      ghost var done := g.Keys - todo;
      ok, outgoing, lists := AddEdges(g, j, done, outgoing, lists);
      if !ok { return false, outgoing, lists, queue; }
      RootsStep(g, done, j, queue);
      if g[j] == {} { queue := queue + [j]; }
      todo := todo - {j};
      assert g.Keys - todo == done + {j};
    }
    assert g.Keys - todo == g.Keys;
    return true, outgoing, lists, queue;
  }

  /** Each listed job comes after all of its dependencies. */
  ghost predicate Ordered(g: Graph, order: seq<JobId>) {
    forall i :: 0 <= i < |order| ==> order[i] in g && g[order[i]] <= Elems(order[..i])
  }

  /** The visit in progress: `order` was visited, `queue` will be; a job is in one of them, once,
      as soon as no dependency is left in `incoming`. */
  ghost predicate Visiting(g: Graph, incoming: map<JobId, set<JobId>>, order: seq<JobId>, queue: seq<JobId>) {
    && incoming.Keys == g.Keys
    && (forall j {:trigger incoming[j]} :: j in g ==> incoming[j] == g[j] - Elems(order))
    && Ordered(g, order)
    && NoDup(order + queue)
    && (forall j :: j in order + queue <==> j in g && incoming[j] == {})
  }

  /** The inner loop for the visit of `c`, with the jobs in `rest` still to do. */
  ghost predicate Relaxing(g: Graph, c: JobId, rest: set<JobId>, incoming: map<JobId, set<JobId>>,
                           order: seq<JobId>, queue: seq<JobId>) {
    && incoming.Keys == g.Keys
    && (forall j {:trigger incoming[j]} :: j in g ==>
          incoming[j] == g[j] - Elems(order) - if j in rest then {} else {c})
    && NoDup(order + [c] + queue)
    && (forall j :: j in order + [c] + queue <==> j in g && incoming[j] == {})
  }

  /** Erase the visited job from the edges of its dependents, in any order. */
  method Relax(g: Graph, c: JobId, dependents: set<JobId>, incoming0: map<JobId, set<JobId>>,
               ghost order: seq<JobId>, queue0: seq<JobId>)
    returns (incoming: map<JobId, set<JobId>>, queue: seq<JobId>)
    requires forall j :: j in dependents <==> j in g && c in g[j]
    requires c !in order && Relaxing(g, c, dependents, incoming0, order, queue0)
    ensures Relaxing(g, c, {}, incoming, order, queue)
  {
    incoming, queue := incoming0, queue0;
    var rest := dependents;
    while rest != {}
      invariant rest <= dependents && Relaxing(g, c, rest, incoming, order, queue)
      decreases rest
    {
      var j :| j in rest;
      assert c in incoming[j];
      assert j !in order + [c] + queue;
      rest := rest - {j};
      incoming := incoming[j := incoming[j] - {c}];
      if incoming[j] == {} {
        NoDupSnoc(order + [c] + queue, j);
        assert order + [c] + queue + [j] == order + [c] + (queue + [j]);
        queue := queue + [j];
      }
    }
  }

  lemma VisitStarts(g: Graph, order: seq<JobId>, c: JobId, queue: seq<JobId>, incoming: map<JobId, set<JobId>>, dependents: set<JobId>)
    requires Visiting(g, incoming, order, [c] + queue)
    requires forall j :: j in dependents <==> j in g && c in g[j]
    ensures c in g && c !in order && g[c] <= Elems(order) && Relaxing(g, c, dependents, incoming, order, queue)
  {
    assert order + ([c] + queue) == order + [c] + queue;
    assert (order + ([c] + queue))[|order|] == c;
    assert incoming[c] == g[c] - Elems(order) == {};
    assert forall d :: d in g[c] ==> d in Elems(order) || d in g[c] - Elems(order);
    var all := order + [c] + queue;
    assert all[|order|] == c;
    forall i | 0 <= i < |order| ensures order[i] != c {
      assert all[i] == order[i];
    }
  }

  lemma VisitEnds(g: Graph, order: seq<JobId>, c: JobId, queue: seq<JobId>, incoming: map<JobId, set<JobId>>)
    requires Ordered(g, order) && c in g && g[c] <= Elems(order) && Relaxing(g, c, {}, incoming, order, queue)
    ensures Visiting(g, incoming, order + [c], queue)
  {
    assert Elems(order + [c]) == Elems(order) + {c};
    forall i | 0 <= i < |order + [c]| ensures (order + [c])[i] in g && g[(order + [c])[i]] <= Elems((order + [c])[..i]) {
      if i < |order| {
        assert (order + [c])[..i] == order[..i];
      } else {
        assert (order + [c])[..i] == order;
      }
    }
  }

  /** Visited jobs are distinct jobs of the graph, so the count bounds the rest of the visit. */
  lemma VisitedBound(g: Graph, incoming: map<JobId, set<JobId>>, order: seq<JobId>, queue: seq<JobId>)
    requires Visiting(g, incoming, order, queue)
    ensures NoDup(order) && |order| == |Elems(order)| && |order| + |queue| <= |g|
  {
    ElemsCard(order + queue);
    SubsetCard(Elems(order + queue), g.Keys);
    assert NoDup(order) by {
      assert forall i :: 0 <= i < |order| ==> (order + queue)[i] == order[i];
    }
    ElemsCard(order);
  }

  /** An exhausted visit that reached every job is a topological order; one that did not leaves
      a set of jobs that wait for each other. */
  lemma VisitDecides(g: Graph, incoming: map<JobId, set<JobId>>, order: seq<JobId>)
    requires Closed(g) && Visiting(g, incoming, order, [])
    ensures |order| == |g| <==> Acyclic(g)
    ensures |order| == |g| ==> IsTopological(g, order)
  {
    VisitedBound(g, incoming, order, []);
    assert order + [] == order;
    assert Elems(order) <= g.Keys;
    SubsetCard(Elems(order), g.Keys);
    if |order| == |g| {
      TopologicalIsAcyclic(g, order);
    } else {
      var r := g.Keys - Elems(order);
      forall j | j in r ensures DependsInto(g, j, r) {
        var d :| d in incoming[j];
        assert d in g[j] && d in r;
      }
      assert Elems(order) + r == g.Keys;
      TrappedSetHasCycle(g, r);
    }
  }

  /** Exact: accepts if and only if every dependency is defined and there is no cycle.  The jobs
      are visited in a topological order, each once; the successor lists are complete. */
  method ValidateDependencies(g: Graph)
    returns (verdict: Verdict, lists: map<JobId, seq<JobId>>, ghost order: seq<JobId>)
    ensures verdict == if !Closed(g) then Rejected(MissingDependency)
                       else if !Acyclic(g) then Rejected(CircularDependency) else Accepted
    ensures verdict.Accepted? ==> IsTopological(g, order) && ListsDependents(g, g.Keys, lists)
  {
    order := [];
    var ok, outgoing, queue;
    ok, outgoing, lists, queue := BuildEdges(g);
    if !ok { return Rejected(MissingDependency), lists, order; }
    var incoming := g;
    var visited := 0;
    VisitBegins(g, queue);
    while queue != []
      invariant Visiting(g, incoming, order, queue) && visited == |order|
      decreases |g| - visited
    {
      VisitedBound(g, incoming, order, queue);
      visited := visited + 1;
      var c := queue[0];
      incoming, queue := Visit(g, outgoing, lists, incoming, order, queue);
      order := order + [c];
    }
    VisitDecides(g, incoming, order);
    if visited != |g| { return Rejected(CircularDependency), lists, order; }
    return Accepted, lists, order;
  }

  lemma VisitBegins(g: Graph, queue: seq<JobId>)
    requires QueuesRoots(g, g.Keys, queue)
    ensures Visiting(g, g, [], queue)
  {
    assert [] + queue == queue;
  }

  /** Take the front of the queue and relax its dependents. */
  method Visit(g: Graph, outgoing: map<JobId, set<JobId>>, ghost lists: map<JobId, seq<JobId>>,
               incoming0: map<JobId, set<JobId>>, ghost order: seq<JobId>, queue0: seq<JobId>)
    returns (incoming: map<JobId, set<JobId>>, queue: seq<JobId>)
    requires ListsDependents(g, g.Keys, lists) && SameEdges(outgoing, lists)
    requires queue0 != [] && Visiting(g, incoming0, order, queue0)
    ensures Visiting(g, incoming, order + [queue0[0]], queue)
  {
    var c, rest := queue0[0], queue0[1..];
    assert queue0 == [c] + rest;
    VisitStarts(g, order, c, rest, incoming0, DependentsOf(g, c));
    DependentsListed(g, lists, outgoing, c);
    incoming, queue := Relax(g, c, outgoing[c], incoming0, order, rest);
    VisitEnds(g, order, c, queue, incoming);
  }

  ghost function DependentsOf(g: Graph, c: JobId): set<JobId> {
    set j | j in g && c in g[j]
  }

  lemma DependentsListed(g: Graph, lists: map<JobId, seq<JobId>>, outgoing: map<JobId, set<JobId>>, c: JobId)
    requires ListsDependents(g, g.Keys, lists) && SameEdges(outgoing, lists) && c in g
    ensures outgoing[c] == DependentsOf(g, c)
  {
    assert IsListOf(g, g.Keys, c, lists[c]);
  }
}
