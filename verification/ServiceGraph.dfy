/** Cycle detection among the services of a recipe, by eliminating the ready ones. */
module ServiceGraph {
  /** Each service with its `depends_on` list. */
  type Graph = map<string, seq<string>>

  function Elements(s: seq<string>): set<string> {
    set x | x in s
  }

  predicate Edge(graph: Graph, from: string, to: string) {
    from in graph && to in graph && to in graph[from]
  }

  predicate Hop(graph: Graph, walk: seq<string>, i: int)
    requires 0 <= i < |walk| - 1
  {
    Edge(graph, walk[i], walk[i + 1])
  }

  predicate Walk(graph: Graph, walk: seq<string>) {
    forall i {:trigger Hop(graph, walk, i)} :: 0 <= i < |walk| - 1 ==> Hop(graph, walk, i)
  }

  /** A closed walk along dependencies. */
  predicate Cycle(graph: Graph, walk: seq<string>) {
    walk != [] && Walk(graph, walk) && Edge(graph, walk[|walk| - 1], walk[0])
  }

  ghost predicate Acyclic(graph: Graph) {
    forall walk :: !Cycle(graph, walk)
  }

  predicate Distinct(s: seq<string>) {
    forall i, j :: 0 <= i < j < |s| ==> s[i] != s[j]
  }

  ghost predicate DependenciesFirst(graph: Graph, order: seq<string>) {
    forall i, to :: 0 <= i < |order| && Edge(graph, order[i], to) ==> to in order[..i]
  }

  /** Every service once, each after everything it depends on. */
  ghost predicate Topological(graph: Graph, order: seq<string>) {
    Distinct(order) && Elements(order) == graph.Keys && DependenciesFirst(graph, order)
  }

  lemma ElementsConcat(a: seq<string>, b: seq<string>)
    ensures Elements(a + b) == Elements(a) + Elements(b)
  {
    assert forall x :: x in a + b <==> x in a || x in b;
  }

  lemma DistinctConcat(a: seq<string>, b: seq<string>)
    requires Distinct(a) && Distinct(b) && Elements(a) !! Elements(b)
    ensures Distinct(a + b)
  {
    forall i, j | 0 <= i < j < |a + b|
      ensures (a + b)[i] != (a + b)[j]
    {
      if i < |a| <= j {
        assert (a + b)[i] in Elements(a) && (a + b)[j] in Elements(b);
      }
    }
  }

  // --- acceptance -------------------------------------------------------------------------

  function IndexOf(order: seq<string>, x: string): (i: nat)
    requires x in order
    ensures i < |order| && order[i] == x
  {
    if order[0] == x then 0 else 1 + IndexOf(order[1..], x)
  }

  lemma EdgeDescends(graph: Graph, order: seq<string>, from: string, to: string)
    requires Topological(graph, order) && Edge(graph, from, to)
    ensures from in order && to in order && IndexOf(order, to) < IndexOf(order, from)
  {
    assert from in Elements(order) && to in Elements(order);
    var i := IndexOf(order, from);
    assert to in order[..i];
    var j :| 0 <= j < i && order[j] == to;
  }

  lemma {:induction false} WalkDescends(graph: Graph, order: seq<string>, walk: seq<string>, i: nat)
    requires Topological(graph, order) && Cycle(graph, walk) && i < |walk|
    ensures walk[0] in order && walk[i] in order && IndexOf(order, walk[i]) + i <= IndexOf(order, walk[0])
  {
    if i == 0 {
      assert walk[0] in Elements(order);
    } else {
      WalkDescends(graph, order, walk, i - 1);
      assert Hop(graph, walk, i - 1);
      EdgeDescends(graph, order, walk[i - 1], walk[i]);
    }
  }

  lemma OrderedIsAcyclic(graph: Graph, order: seq<string>)
    requires Topological(graph, order)
    ensures Acyclic(graph)
  {
    forall walk
      ensures !Cycle(graph, walk)
    {
      if Cycle(graph, walk) {
        WalkDescends(graph, order, walk, |walk| - 1);
        EdgeDescends(graph, order, walk[|walk| - 1], walk[0]);
      }
    }
  }

  // --- rejection --------------------------------------------------------------------------

  lemma {:induction false} DistinctSize(s: seq<string>)
    requires Distinct(s)
    ensures |Elements(s)| == |s|
  {
    if s != [] {
      DistinctSize(s[1..]);
      assert Elements(s) == {s[0]} + Elements(s[1..]);
      assert s[0] !in Elements(s[1..]);
    }
  }

  /** Every service left depends on another one left. */
  ghost predicate Stuck(graph: Graph, left: set<string>) {
    left <= graph.Keys && forall n {:trigger Held(graph, left, n)} :: n in left ==> Held(graph, left, n)
  }

  ghost predicate Held(graph: Graph, left: set<string>, n: string) {
    exists to :: to in left && Edge(graph, n, to)
  }

  /** Then walking on must close a cycle before the services run out. */
  lemma FollowToCycle(graph: Graph, left: set<string>, path: seq<string>) returns (walk: seq<string>)
    requires Stuck(graph, left) && Walk(graph, path)
    requires path != [] && Distinct(path) && Elements(path) <= left
    ensures Cycle(graph, walk)
    decreases |left| - |path|
  {
    var last := path[|path| - 1];
    assert last in Elements(path);
    assert Held(graph, left, last);
    var next :| next in left && Edge(graph, last, next);
    if next in path {
      var i :| 0 <= i < |path| && path[i] == next;
      walk := path[i..];
      assert walk[|walk| - 1] == last && walk[0] == next;
      forall k | 0 <= k < |walk| - 1
        ensures Hop(graph, walk, k)
      {
        assert Hop(graph, path, i + k);
      }
    } else {
      var longer := path + [next];
      ElementsConcat(path, [next]);
      DistinctConcat(path, [next]);
      DistinctSize(longer);
      SubsetSize(Elements(longer), left);
      forall k | 0 <= k < |longer| - 1
        ensures Hop(graph, longer, k)
      {
        assert k < |path| - 1 ==> Hop(graph, path, k);
      }
      walk := FollowToCycle(graph, left, longer);
    }
  }

  lemma {:induction false} SubsetSize(a: set<string>, b: set<string>)
    requires a <= b
    ensures |a| <= |b|
  {
    if a != {} {
      var x :| x in a;
      SubsetSize(a - {x}, b - {x});
    }
  }

  // --- the elimination loop ---------------------------------------------------------------

  method SequenceOf(s: set<string>) returns (r: seq<string>)
    ensures Distinct(r) && Elements(r) == s
  {
    r := [];
    var left := s;
    while left != {}
      invariant Distinct(r) && left <= s && Elements(r) == s - left
      decreases left
    {
      var x :| x in left;
      ElementsConcat(r, [x]);
      DistinctConcat(r, [x]);
      r := r + [x];
      left := left - {x};
    }
  }

  /** Accepts exactly the acyclic graphs; acceptance yields a start order, rejection a cycle. */
  method Dependencies(graph: Graph) returns (accepted: bool, order: seq<string>, ghost cycle: seq<string>)
    ensures accepted <==> Acyclic(graph)
    ensures accepted ==> Topological(graph, order)
    ensures !accepted ==> Cycle(graph, cycle)
  {
    var remaining := graph.Keys;
    order, cycle := [], [];
    while remaining != {}
      invariant Partial(graph, order, remaining)
      decreases |remaining|
    {
      var ready := Ready(graph, remaining);
      if ready == {} {
        cycle := NothingReady(graph, remaining);
        return false, [], cycle;
      }
      var batch := SequenceOf(ready);
      Extended(graph, order, batch, remaining);
      order := order + batch;
      SubsetShrinks(remaining, ready);
      remaining := remaining - ready;
    }
    OrderedIsAcyclic(graph, order);
    return true, order, [];
  }

  function Ready(graph: Graph, remaining: set<string>): set<string> {
    set name | name in remaining && name in graph && Elements(graph[name]) * remaining == {}
  }

  /** The services taken so far are in start order and the rest remain. */
  ghost predicate Partial(graph: Graph, order: seq<string>, remaining: set<string>) {
    && remaining <= graph.Keys && Elements(order) == graph.Keys - remaining
    && Distinct(order) && DependenciesFirst(graph, order)
  }

  lemma NotReady(graph: Graph, remaining: set<string>, n: string)
    requires n in remaining && remaining <= graph.Keys && n !in Ready(graph, remaining)
    ensures Held(graph, remaining, n)
  {
    var to :| to in Elements(graph[n]) * remaining;
    assert Edge(graph, n, to);
  }

  lemma NothingReady(graph: Graph, remaining: set<string>) returns (cycle: seq<string>)
    requires remaining != {} && remaining <= graph.Keys && Ready(graph, remaining) == {}
    ensures Cycle(graph, cycle)
  {
    hide Ready, Held, Edge;
    forall n | n in remaining
      ensures Held(graph, remaining, n)
    {
      NotReady(graph, remaining, n);
    }
    var start :| start in remaining;
    cycle := FollowToCycle(graph, remaining, [start]);
  }

  lemma SubsetShrinks(s: set<string>, removed: set<string>)
    requires removed != {} && removed <= s
    ensures |s - removed| < |s|
  {
    var x :| x in removed;
    SubsetSize(s - removed, s - {x});
  }

  lemma DisjointMember(a: set<string>, b: set<string>, x: string)
    requires a * b == {} && x in a
    ensures x !in b
  {
    assert x in b ==> x in a * b;
  }

  /** Appending the ready services keeps the order: what they need is already there. */
  lemma Extended(graph: Graph, order: seq<string>, batch: seq<string>, remaining: set<string>)
    requires Partial(graph, order, remaining) && Distinct(batch) && Elements(batch) == Ready(graph, remaining)
    ensures Partial(graph, order + batch, remaining - Ready(graph, remaining))
  {
    var longer := order + batch;
    ElementsConcat(order, batch);
    DistinctConcat(order, batch);
    forall i, to | 0 <= i < |longer| && Edge(graph, longer[i], to)
      ensures to in longer[..i]
    {
      if i < |order| {
        assert longer[i] == order[i] && longer[..i] == order[..i];
      } else {
        assert longer[i] in Elements(batch);
        assert longer[i] in Ready(graph, remaining);
        var needs := Elements(graph[longer[i]]);
        DisjointMember(needs, remaining, to);
        assert to in Elements(order);
        assert longer[..i] == order + batch[..i - |order|];
      }
    }
  }
}
