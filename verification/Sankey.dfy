// Sankey link validation: Kahn's algorithm over maps, as the dashboard runs it
// on the published (source, target) records of one widget.
module Sankey {
  import opened Common

  datatype Name = Name(text: string)
  datatype Link = Link(source: Name, target: Name)
  datatype Verdict = Accepted | Duplicate(index: nat) | Cyclic

  ghost function Nodes(e: set<Link>): set<Name> {
    (set l | l in e :: l.source) + (set l | l in e :: l.target)
  }

  ghost predicate Joined(e: set<Link>, p: seq<Name>, i: int) {
    0 <= i < |p| - 1 ==> Link(p[i], p[i + 1]) in e
  }

  ghost predicate Walk(e: set<Link>, p: seq<Name>) {
    forall i :: Joined(e, p, i)
  }

  // A closed walk along at least one link.
  ghost predicate Cycle(e: set<Link>, p: seq<Name>) {
    |p| >= 2 && Walk(e, p) && p[0] == p[|p| - 1]
  }

  ghost predicate Acyclic(e: set<Link>) {
    forall p :: !Cycle(e, p)
  }

  ghost predicate Precedes(order: seq<Name>, u: Name, j: nat) {
    exists i :: 0 <= i < j && i < |order| && order[i] == u
  }

  // Every link into order[j] starts at an earlier position.
  ghost predicate Ordered(e: set<Link>, order: seq<Name>) {
    forall j, l :: 0 <= j < |order| && l in e && l.target == order[j] ==> Precedes(order, l.source, j)
  }

  ghost predicate TopologicalOrder(e: set<Link>, order: seq<Name>) {
    Distinct(order) && Elements(order) == Nodes(e) && Ordered(e, order)
  }

  // Position descent along a cycle: in a topological order each predecessor sits
  // strictly earlier, so the walk backwards from p[k] has no room to close.
  lemma {:induction false} WalkDescends(e: set<Link>, order: seq<Name>, p: seq<Name>, k: nat, at: nat)
    requires Distinct(order) && Ordered(e, order) && Walk(e, p)
    requires k < |p| && at < |order| && order[at] == p[k]
    ensures exists i :: 0 <= i < |order| && order[i] == p[0] && i + k <= at
    decreases k
  {
    if k > 0 {
      assert Joined(e, p, k - 1);
      assert Precedes(order, p[k - 1], at);
      var i :| 0 <= i < at && order[i] == p[k - 1];
      WalkDescends(e, order, p, k - 1, i);
    }
  }

  lemma OrderedIsAcyclic(e: set<Link>, order: seq<Name>)
    requires TopologicalOrder(e, order)
    ensures Acyclic(e)
  {
    forall p ensures !Cycle(e, p) {
      if Cycle(e, p) {
        var last := |p| - 1;
        assert Joined(e, p, last - 1);
        assert p[last] in Elements(order);
        var at :| 0 <= at < |order| && order[at] == p[last];
        WalkDescends(e, order, p, last, at);
        assert false;
      }
    }
  }

  ghost predicate HasPredecessor(e: set<Link>, stuck: set<Name>, v: Name) {
    exists u :: u in stuck && Link(u, v) in e
  }

  lemma ExtendBackwards(e: set<Link>, u: Name, p: seq<Name>)
    requires |p| > 0 && Walk(e, p) && Link(u, p[0]) in e
    ensures Walk(e, [u] + p)
    ensures forall k :: 0 <= k < |p| && p[k] == u ==> Cycle(e, ([u] + p)[..k + 2])
  {
    var q := [u] + p;
    forall i ensures Joined(e, q, i) {
      assert Joined(e, p, i - 1);
    }
    forall k | 0 <= k < |p| && p[k] == u ensures Cycle(e, q[..k + 2]) {
      var c := q[..k + 2];
      forall i ensures Joined(e, c, i) {
        assert Joined(e, q, i);
      }
    }
  }

  // A finite non-empty set whose members all have a predecessor inside it holds
  // a cycle: extend a duplicate-free walk backwards until a node repeats.
  lemma {:induction false} BackwardWalkCloses(e: set<Link>, stuck: set<Name>, p: seq<Name>)
    requires forall v {:trigger HasPredecessor(e, stuck, v)} :: v in stuck ==> HasPredecessor(e, stuck, v)
    requires |p| > 0 && Distinct(p) && Elements(p) <= stuck && Walk(e, p)
    ensures exists c :: Cycle(e, c)
    decreases |stuck| - |p|
  {
    assert p[0] in stuck by { assert p[0] in Elements(p); }
    assert HasPredecessor(e, stuck, p[0]);
    var u :| u in stuck && Link(u, p[0]) in e;
    ExtendBackwards(e, u, p);
    if k :| 0 <= k < |p| && p[k] == u {
      assert Cycle(e, ([u] + p)[..k + 2]);
    } else {
      ElementsGrow(p, u);
      DistinctBound([u] + p, stuck);
      BackwardWalkCloses(e, stuck, [u] + p);
    }
  }

  ghost function Into(e: set<Link>, v: Name): set<Link> {
    set l | l in e && l.target == v
  }

  ghost function From(e: set<Link>, done: seq<Name>): set<Link> {
    set l | l in e && l.source in done
  }

  ghost function Targets(e: set<Link>, u: Name): set<Name> {
    set l | l in e && l.source == u :: l.target
  }

  lemma IntoAdd(e: set<Link>, l: Link, v: Name)
    requires l !in e
    ensures |Into(e + {l}, v)| == |Into(e, v)| + (if v == l.target then 1 else 0)
  {
    if v == l.target {
      assert Into(e + {l}, v) == Into(e, v) + {l};
    } else {
      assert Into(e + {l}, v) == Into(e, v);
    }
  }

  ghost function Sources(e: set<Link>): set<Name> {
    set l | l in e :: l.source
  }

  // The adjacency map lists each source's targets.
  ghost predicate Adjacent(e: set<Link>, edges: map<Name, set<Name>>) {
    edges.Keys == Sources(e) && forall u :: u in edges ==> edges[u] == Targets(e, u)
  }

  // The counters cover the nodes and count the links of e into each of them.
  ghost predicate Counts(e: set<Link>, nodes: set<Name>, indegree: map<Name, int>) {
    indegree.Keys == nodes && forall v :: v in nodes ==> indegree[v] == |Into(e, v)|
  }

  function Record(edges: map<Name, set<Name>>, link: Link): map<Name, set<Name>> {
    edges[link.source := (if link.source in edges then edges[link.source] else {}) + {link.target}]
  }

  function Count(indegree: map<Name, int>, link: Link): map<Name, int> {
    var bumped := indegree[link.target := (if link.target in indegree then indegree[link.target] else 0) + 1];
    if link.source in bumped then bumped else bumped[link.source := 0]
  }

  lemma AdjacentStep(e: set<Link>, edges: map<Name, set<Name>>, link: Link)
    requires Adjacent(e, edges)
    ensures Adjacent(e + {link}, Record(edges, link))
    ensures link in e <==> link.source in edges && link.target in edges[link.source]
  {
    var e' := e + {link};
    assert Sources(e') == Sources(e) + {link.source};
    if link.source !in edges { assert Targets(e, link.source) == {}; }
    forall u | u in Sources(e') ensures Record(edges, link)[u] == Targets(e', u) {
      if u == link.source {
        assert Targets(e', u) == Targets(e, u) + {link.target};
      } else {
        assert Targets(e', u) == Targets(e, u);
      }
    }
    if link.source in edges && link.target in edges[link.source] {
      var l :| l in e && l.source == link.source && l.target == link.target;
      assert l == link;
    }
  }

  lemma CountsStep(e: set<Link>, indegree: map<Name, int>, link: Link)
    requires link !in e && Counts(e, Nodes(e), indegree)
    ensures Counts(e + {link}, Nodes(e + {link}), Count(indegree, link))
  {
    var e' := e + {link};
    assert Nodes(e') == Nodes(e) + {link.source, link.target};
    forall v | v in Nodes(e') ensures Count(indegree, link)[v] == |Into(e', v)| {
      IntoAdd(e, link, v);
      if v !in Nodes(e) { assert Into(e, v) == {}; }
    }
  }

  method Tabulate(links: seq<Link>)
    returns (duplicate: Option<nat>, edges: map<Name, set<Name>>, indegree: map<Name, int>)
    ensures duplicate.None? ==> Distinct(links)
    ensures duplicate.None? ==> Adjacent(Elements(links), edges)
    ensures duplicate.None? ==> Counts(Elements(links), Nodes(Elements(links)), indegree)
    ensures duplicate.Some? ==> duplicate.value < |links| && FirstDuplicate(links, duplicate.value)
  {
    edges, indegree := map[], map[];
    for i := 0 to |links|
      invariant Distinct(links[..i])
      invariant Adjacent(Elements(links[..i]), edges)
      invariant Counts(Elements(links[..i]), Nodes(Elements(links[..i])), indegree)
    {
      var link := links[i];
      ghost var e := Elements(links[..i]);
      AdjacentStep(e, edges, link);
      if link.source in edges && link.target in edges[link.source] {
        return Some(i), edges, indegree;
      }
      CountsStep(e, indegree, link);
      edges := Record(edges, link);
      indegree := Count(indegree, link);
      PrefixGrow(links, i);
    }
    assert links[..|links|] == links;
    duplicate := None;
  }

  // links[i] is the first link that repeats an earlier one.
  ghost predicate FirstDuplicate(links: seq<Link>, i: nat)
    requires i < |links|
  {
    links[i] in links[..i] && Distinct(links[..i])
  }

  // What every iteration of the visit keeps. `gone` holds the links already
  // counted off; `queue` lists the nodes whose counter reached zero.
  ghost predicate Visiting(e: set<Link>, gone: set<Link>, queue: seq<Name>, indegree: map<Name, int>, seen: nat) {
    && seen <= |queue|
    && gone <= e
    && (forall l :: l in gone ==> l.source in queue[..seen])
    && Counts(e - gone, Nodes(e), indegree)
    && Distinct(queue)
    && (forall v :: v in queue <==> v in Nodes(e) && indegree[v] == 0)
    && Ordered(e, queue)
  }

  // Counting off one link of the node being visited.
  lemma VisitLink(e: set<Link>, gone: set<Link>, queue: seq<Name>, indegree: map<Name, int>, seen: nat, l: Link)
    returns (queue': seq<Name>, indegree': map<Name, int>)
    requires Visiting(e, gone, queue, indegree, seen)
    requires l in e - gone && l.source in queue[..seen]
    ensures l.target in indegree
    ensures indegree' == indegree[l.target := indegree[l.target] - 1]
    ensures queue' == if indegree'[l.target] == 0 then queue + [l.target] else queue
    ensures Visiting(e, gone + {l}, queue', indegree', seen)
  {
    var t := l.target;
    indegree' := indegree[t := indegree[t] - 1];
    queue' := if indegree'[t] == 0 then queue + [t] else queue;
    var rest := e - gone - {l};
    assert rest + {l} == e - gone && e - (gone + {l}) == rest;
    CountedOff(e, rest, l, indegree);
    assert l in Into(e - gone, t);
    assert queue'[..seen] == queue[..seen];
    if indegree'[t] == 0 {
      LastLinkGone(e, gone, l, queue[..seen]);
      OrderedGrow(e, queue, seen, t);
      ElementsGrow(queue, t);
    }
  }

  lemma CountedOff(e: set<Link>, rest: set<Link>, l: Link, indegree: map<Name, int>)
    requires l !in rest && l in e && Counts(rest + {l}, Nodes(e), indegree)
    ensures l.target in indegree && Counts(rest, Nodes(e), indegree[l.target := indegree[l.target] - 1])
  {
    forall v | v in Nodes(e) ensures |Into(rest, v)| == |Into(rest + {l}, v)| - if v == l.target then 1 else 0 {
      IntoAdd(rest, l, v);
    }
  }

  // With no link into t left, all its links start at visited nodes.
  lemma LastLinkGone(e: set<Link>, gone: set<Link>, l: Link, visited: seq<Name>)
    requires |Into(e - gone - {l}, l.target)| == 0 && l.source in visited
    requires forall k :: k in gone ==> k.source in visited
    ensures forall k :: k in e && k.target == l.target ==> k.source in visited
  {
    forall k | k in e && k.target == l.target ensures k.source in visited {
      assert k !in Into(e - gone - {l}, l.target);
    }
  }

  lemma OrderedGrow(e: set<Link>, queue: seq<Name>, seen: nat, t: Name)
    requires Ordered(e, queue) && seen <= |queue|
    requires forall k :: k in e && k.target == t ==> k.source in queue[..seen]
    ensures Ordered(e, queue + [t])
  {
    var q := queue + [t];
    forall j, k | 0 <= j < |q| && k in e && k.target == q[j] ensures Precedes(q, k.source, j) {
      if j < |queue| {
        assert Precedes(queue, k.source, j);
        var i :| 0 <= i < j && queue[i] == k.source;
        assert q[i] == k.source;
      } else {
        var i :| 0 <= i < seen && queue[..seen][i] == k.source;
        assert q[i] == k.source;
      }
    }
  }

  // The nodes left out of a finished visit each keep an uncounted link, whose
  // source was left out too.
  lemma StuckNodesCycle(e: set<Link>, queue: seq<Name>, indegree: map<Name, int>, v: Name)
    requires Visiting(e, From(e, queue), queue, indegree, |queue|)
    requires v in Nodes(e) && v !in queue
    ensures !Acyclic(e)
  {
    var stuck := Nodes(e) - Elements(queue);
    forall w | w in stuck ensures HasPredecessor(e, stuck, w) {
      assert Into(e - From(e, queue), w) != {};
      var l :| l in Into(e - From(e, queue), w);
      assert l == Link(l.source, w) && l.source in stuck;
    }
    BackwardWalkCloses(e, stuck, [v]);
  }

  lemma VisitStart(e: set<Link>, queue: seq<Name>, indegree: map<Name, int>)
    requires Counts(e, Nodes(e), indegree) && Distinct(queue)
    requires forall v :: v in queue <==> v in Nodes(e) && indegree[v] == 0
    ensures Visiting(e, {}, queue, indegree, 0)
  {
    assert e - {} == e;
    forall l | l in e ensures l.target !in queue {
      assert l in Into(e, l.target);
    }
    forall j, l | 0 <= j < |queue| && l in e ensures l.target != queue[j] {
      assert queue[j] in queue;
    }
  }

  // The nodes whose counter is zero, in the map's unspecified order.
  method ZeroNodes(indegree: map<Name, int>) returns (queue: seq<Name>)
    ensures Distinct(queue)
    ensures forall v :: v in queue <==> v in indegree && indegree[v] == 0
  {
    queue := [];
    var rest := indegree.Keys;
    while rest != {}
      invariant rest <= indegree.Keys && Distinct(queue)
      invariant forall v :: v in queue <==> v in indegree.Keys - rest && indegree[v] == 0
    {
      var v :| v in rest;
      rest := rest - {v};
      if indegree[v] == 0 {
        ElementsGrow(queue, v);
        queue := queue + [v];
      }
    }
  }

  // The links from `node` to the given targets.
  ghost function Out(node: Name, targets: set<Name>): set<Link> {
    set t | t in targets :: Link(node, t)
  }

  lemma OutFacts(e: set<Link>, node: Name, done: seq<Name>, rest: set<Name>, target: Name)
    requires target in rest && rest <= Targets(e, node) && node !in done
    ensures Link(node, target) in e - (From(e, done) + Out(node, Targets(e, node) - rest))
    ensures From(e, done) + Out(node, Targets(e, node) - rest) + {Link(node, target)}
         == From(e, done) + Out(node, Targets(e, node) - (rest - {target}))
  {
    var t := Targets(e, node);
    assert t - (rest - {target}) == (t - rest) + {target};
    assert Out(node, (t - rest) + {target}) == Out(node, t - rest) + {Link(node, target)};
  }

  lemma OutDone(e: set<Link>, node: Name, done: seq<Name>)
    ensures From(e, done) + Out(node, {}) == From(e, done)
    ensures From(e, done) + Out(node, Targets(e, node)) == From(e, done + [node])
  {
    forall l ensures l in From(e, done) + Out(node, Targets(e, node)) <==> l in From(e, done + [node]) {
      assert l.source in done + [node] <==> l.source in done || l.source == node;
      if l in e && l.source == node { assert l == Link(node, l.target); }
    }
  }

  // One link counted off; its target joins the queue with its last link.
  method CountOff(ghost e: set<Link>, ghost gone: set<Link>, ghost seen: nat, ghost node: Name, target: Name,
                  queue0: seq<Name>, indegree0: map<Name, int>)
    returns (queue: seq<Name>, indegree: map<Name, int>)
    requires Visiting(e, gone, queue0, indegree0, seen)
    requires Link(node, target) in e - gone && node in queue0[..seen]
    ensures queue0 <= queue
    ensures Visiting(e, gone + {Link(node, target)}, queue, indegree, seen)
  {
    queue, indegree := queue0, indegree0;
    ghost var q, d := VisitLink(e, gone, queue, indegree, seen, Link(node, target));
    indegree := indegree[target := indegree[target] - 1];
    if indegree[target] == 0 {
      queue := queue + [target];
    }
  }

  // One pass of the inner loop: count off every link of `node`.
  method VisitNode(ghost e: set<Link>, ghost seen: nat, node: Name, targets: set<Name>,
                   queue0: seq<Name>, indegree0: map<Name, int>)
    returns (queue: seq<Name>, indegree: map<Name, int>)
    requires seen < |queue0| && queue0[seen] == node
    requires Visiting(e, From(e, queue0[..seen]), queue0, indegree0, seen)
    requires targets == Targets(e, node)
    ensures |queue| >= |queue0|
    ensures Visiting(e, From(e, queue[..seen + 1]), queue, indegree, seen + 1)
  {
    queue, indegree := queue0, indegree0;
    ghost var done := queue0[..seen];
    var rest := targets;
    OutDone(e, node, done);
    assert targets - rest == {};
    PrefixGrow(queue0, seen);
    while rest != {}
      invariant rest <= targets && node !in done
      invariant |queue| >= |queue0| && queue[..seen + 1] == done + [node]
      invariant Visiting(e, From(e, done) + Out(node, targets - rest), queue, indegree, seen + 1)
    {
      var target :| target in rest;
      OutFacts(e, node, done, rest, target);
      queue, indegree := CountOff(e, From(e, done) + Out(node, targets - rest), seen + 1, node, target, queue, indegree);
      rest := rest - {target};
    }
    assert targets - rest == targets;
  }

  // A finished visit: a full count is a topological order, a short count leaves
  // a cycle behind.
  lemma VisitVerdict(e: set<Link>, queue: seq<Name>, indegree: map<Name, int>)
    requires Visiting(e, From(e, queue), queue, indegree, |queue|)
    ensures |queue| == |Nodes(e)| ==> TopologicalOrder(e, queue) && Acyclic(e)
    ensures |queue| != |Nodes(e)| ==> exists c :: Cycle(e, c)
  {
    QueueBound(e, queue);
    if |queue| == |Nodes(e)| {
      OrderedIsAcyclic(e, queue);
    } else {
      assert Elements(queue) <= Nodes(e) && Elements(queue) != Nodes(e);
      var v :| v in Nodes(e) && v !in Elements(queue);
      StuckNodesCycle(e, queue, indegree, v);
    }
  }

  // The visit loop: how many nodes lose all their incoming links.
  method Visit(ghost e: set<Link>, edges: map<Name, set<Name>>, counters: map<Name, int>) returns (visited: nat)
    requires Adjacent(e, edges) && Counts(e, Nodes(e), counters)
    ensures visited == |Nodes(e)| ==> exists order :: TopologicalOrder(e, order)
    ensures visited == |Nodes(e)| ==> Acyclic(e)
    ensures visited != |Nodes(e)| ==> exists c :: Cycle(e, c)
  {
    var indegree := counters;
    var queue := ZeroNodes(indegree);
    VisitStart(e, queue, indegree);
    visited := 0;
    assert From(e, queue[..0]) == {};
    while visited < |queue|
      invariant visited <= |queue|
      invariant Visiting(e, From(e, queue[..visited]), queue, indegree, visited)
      decreases |Nodes(e)| - visited
    {
      var node := queue[visited];
      QueueBound(e, queue);
      var targets := if node in edges then edges[node] else {};
      assert targets == Targets(e, node);
      queue, indegree := VisitNode(e, visited, node, targets, queue, indegree);
      visited := visited + 1;
    }
    assert queue[..visited] == queue;
    VisitVerdict(e, queue, indegree);
  }

  // The whole check: duplicates are reported first, then the visit count decides.
  method ValidateLinks(links: seq<Link>) returns (verdict: Verdict)
    ensures verdict.Duplicate? <==> !Distinct(links)
    ensures verdict.Duplicate? ==> verdict.index < |links| && FirstDuplicate(links, verdict.index)
    ensures verdict.Accepted? <==> Distinct(links) && Acyclic(Elements(links))
    ensures verdict.Accepted? ==> exists order :: TopologicalOrder(Elements(links), order)
    ensures verdict.Cyclic? ==> exists c :: Cycle(Elements(links), c)
  {
    var duplicate, edges, indegree := Tabulate(links);
    if duplicate.Some? {
      FirstDuplicateRepeats(links, duplicate.value);
      return Duplicate(duplicate.value);
    }
    var visited := Visit(Elements(links), edges, indegree);
    if visited != |indegree| {
      return Cyclic;
    }
    return Accepted;
  }

  lemma FirstDuplicateRepeats(links: seq<Link>, i: nat)
    requires i < |links| && FirstDuplicate(links, i)
    ensures !Distinct(links)
  {
    var j :| 0 <= j < i && links[..i][j] == links[i];
    assert links[j] == links[i];
  }

  lemma QueueBound(e: set<Link>, queue: seq<Name>)
    requires Distinct(queue) && forall v :: v in queue ==> v in Nodes(e)
    ensures |queue| <= |Nodes(e)|
    ensures |queue| == |Nodes(e)| <==> Elements(queue) == Nodes(e)
  {
    DistinctCardinality(queue);
    DistinctBound(queue, Nodes(e));
  }
}
