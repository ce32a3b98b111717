/** Dependency graphs.  `g[j]` is the set of jobs that job `j` depends on. */
module Dag {
  import opened Basics

  datatype JobId = JobId(name: string)
  type Graph = map<JobId, set<JobId>>

  /** Every dependency names a defined job. */
  ghost predicate Closed(g: Graph) {
    forall j, d :: j in g && d in g[j] ==> d in g
  }

  /** Each element of `p` depends on the next one. */
  ghost predicate IsChain(g: Graph, p: seq<JobId>) {
    && (forall i :: 0 <= i < |p| ==> p[i] in g)
    && (forall i :: 0 <= i < |p| - 1 ==> p[i + 1] in g[p[i]])
  }

  /** A chain whose last element depends on its first; a self-loop is a cycle of length one. */
  ghost predicate IsCycle(g: Graph, p: seq<JobId>) {
    p != [] && IsChain(g, p) && p[0] in g[p[|p| - 1]]
  }

  ghost predicate Acyclic(g: Graph) {
    !exists p :: IsCycle(g, p)
  }

  /** `order` lists every job once and each job after all of its dependencies. */
  ghost predicate IsTopological(g: Graph, order: seq<JobId>) {
    && NoDup(order)
    && Elems(order) == g.Keys
    && forall i :: 0 <= i < |order| ==> g[order[i]] <= Elems(order[..i])
  }

  ghost predicate DependsInto(g: Graph, j: JobId, r: set<JobId>) {
    j in g && exists d :: d in g[j] && d in r
  }

  /** Every member of the set depends on some member of the set. */
  ghost predicate Trapped(g: Graph, r: set<JobId>) {
    forall j {:trigger DependsInto(g, j, r)} :: j in r ==> DependsInto(g, j, r)
  }

  /** A non-empty trapped set contains a cycle. */
  lemma TrappedSetHasCycle(g: Graph, r: set<JobId>)
    requires r != {} && Trapped(g, r)
    ensures !Acyclic(g)
  {
    var j :| j in r;
    assert DependsInto(g, j, r);
    ExtendChain(g, r, [j]);
  }

  /** Walk along dependencies inside the trapped set until a job repeats. */
  lemma {:induction false} ExtendChain(g: Graph, r: set<JobId>, p: seq<JobId>)
    requires Trapped(g, r)
    requires p != [] && NoDup(p) && Elems(p) <= r && IsChain(g, p)
    ensures !Acyclic(g)
    decreases |r| - |p|
  {
    var last := p[|p| - 1];
    assert last in r by { assert last in Elems(p); }
    assert DependsInto(g, last, r);
    var d :| d in g[last] && d in r;
    if d in p {
      CloseChain(g, p, d);
    } else {
      assert DependsInto(g, d, r);
      NoDupSnoc(p, d);
      ChainSnoc(g, p, d);
      assert |p| + 1 <= |r| by {
        ElemsCard(p + [d]);
        SubsetCard(Elems(p + [d]), r);
      }
      ExtendChain(g, r, p + [d]);
    }
  }

  lemma ChainSnoc(g: Graph, p: seq<JobId>, d: JobId)
    requires p != [] && IsChain(g, p) && d in g && d in g[p[|p| - 1]]
    ensures IsChain(g, p + [d])
  {
    var p' := p + [d];
    forall i | 0 <= i < |p'| - 1 ensures p'[i + 1] in g[p'[i]] {
      if i == |p| - 1 { assert p'[i + 1] == d; }
    }
  }

  lemma CloseChain(g: Graph, p: seq<JobId>, d: JobId)
    requires p != [] && IsChain(g, p) && d in p && d in g[p[|p| - 1]]
    ensures !Acyclic(g)
  {
    var i :| 0 <= i < |p| && p[i] == d;
    var c := p[i..];
    assert IsChain(g, c);
    assert IsCycle(g, c);
  }

  /** Along a chain the positions in a topological order strictly decrease. */
  lemma {:induction false} ChainDescends(g: Graph, order: seq<JobId>, p: seq<JobId>, a: nat, b: nat)
    requires IsTopological(g, order)
    requires p != [] && IsChain(g, p)
    requires a < |order| && order[a] == p[0]
    requires b < |order| && order[b] == p[|p| - 1]
    ensures b <= a
    decreases |p|
  {
    if |p| > 1 {
      assert p[1] in Elems(order[..a]);
      var c :| 0 <= c < a && order[c] == p[1];
      ChainDescends(g, order, p[1..], c, b);
    }
  }

  lemma TopologicalIsAcyclic(g: Graph, order: seq<JobId>)
    requires IsTopological(g, order)
    ensures Acyclic(g) && Closed(g)
  {
    forall p | IsCycle(g, p) ensures false {
      assert p[0] in Elems(order) && p[|p| - 1] in Elems(order);
      var a :| 0 <= a < |order| && order[a] == p[0];
      var b :| 0 <= b < |order| && order[b] == p[|p| - 1];
      ChainDescends(g, order, p, a, b);
    }
    forall j, d | j in g && d in g[j] ensures d in g {
      assert j in Elems(order);
      var i :| 0 <= i < |order| && order[i] == j;
      assert d in Elems(order[..i]);
      assert d in Elems(order);
    }
  }
}
