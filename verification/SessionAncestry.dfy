// Resolving a coding session to its checkout: a walk up the engine's parent
// links until the catalogue knows an ancestor, then cataloguing the walked
// children top down.
module SessionAncestry {
  import opened Common

  type Id = string

  datatype Tree = Tree(id: nat, directory: string)

  // `directory` is what the engine reports; `clean` is its path.Clean'ed form
  // below the agent's home.
  datatype Session = Session(parent: Option<Id>, directory: string, clean: string)

  // The engine's sessions and the caller's usable checkouts by directory.
  datatype World = World(sessions: map<Id, Session>, checkouts: map<string, Tree>)

  // The catalogue: stored sessions with their parents, threads bound to the
  // caller's checkouts, and threads bound to somebody else's.
  datatype Catalogue = Catalogue(stored: map<Id, Option<Id>>, bound: map<Id, Tree>, foreign: set<Id>)

  datatype Outcome = Found(tree: Tree) | NotFound | StoreFailed

  ghost predicate Up(stored: map<Id, Option<Id>>, p: seq<Id>, i: int) {
    0 < i < |p| ==> p[i - 1] in stored && stored[p[i - 1]] == Some(p[i])
  }

  // p climbs from its first session to its last through stored parents.
  ghost predicate Climb(stored: map<Id, Option<Id>>, p: seq<Id>) {
    p != [] && forall i :: Up(stored, p, i)
  }

  ghost predicate ResolvesBy(c: Catalogue, id: Id, tree: Tree, p: seq<Id>) {
    Climb(c.stored, p) && p[0] == id && p[|p| - 1] in c.bound && c.bound[p[|p| - 1]] == tree
  }

  // GatewayResolveCodingSession may return any bound ancestor's checkout.
  ghost predicate Resolves(c: Catalogue, id: Id, tree: Tree) {
    exists p :: ResolvesBy(c, id, tree, p)
  }

  ghost predicate Unresolvable(c: Catalogue, id: Id) {
    forall tree :: !Resolves(c, id, tree)
  }

  ghost predicate ParentClosed(stored: map<Id, Option<Id>>, ids: set<Id>) {
    forall x :: x in ids && x in stored && stored[x].Some? ==> stored[x].value in ids
  }

  lemma {:induction false} ClimbStaysInside(stored: map<Id, Option<Id>>, ids: set<Id>, p: seq<Id>, k: nat)
    requires Climb(stored, p) && k < |p| && p[0] in ids && ParentClosed(stored, ids)
    ensures p[k] in ids
    decreases k
  {
    if k > 0 {
      ClimbStaysInside(stored, ids, p, k - 1);
      assert Up(stored, p, k);
    }
  }

  lemma ClosedUnresolvable(c: Catalogue, id: Id, ids: set<Id>)
    requires id in ids && ParentClosed(c.stored, ids) && forall x :: x in ids ==> x !in c.bound
    ensures Unresolvable(c, id)
  {
    forall tree, p | ResolvesBy(c, id, tree, p) ensures false {
      ClimbStaysInside(c.stored, ids, p, |p| - 1);
    }
  }

  lemma ClimbExtends(stored: map<Id, Option<Id>>, p: seq<Id>, next: Id)
    requires Climb(stored, p) && p[|p| - 1] in stored && stored[p[|p| - 1]] == Some(next)
    ensures Climb(stored, p + [next])
  {
    var q := p + [next];
    forall i ensures Up(stored, q, i) { assert Up(stored, p, i); }
  }

  // The recursive ancestor query; it terminates on cyclic parents too.
  method Query(c: Catalogue, id: Id) returns (row: Option<Tree>)
    ensures row.Some? ==> Resolves(c, id, row.value)
    ensures row.None? ==> Unresolvable(c, id)
  {
    var at := id;
    var seen := {};
    ghost var p := [id];
    while at !in seen
      invariant Climb(c.stored, p) && p[0] == id && p[|p| - 1] == at
      invariant at == id || id in seen
      invariant forall x :: x in seen ==> x !in c.bound
      invariant seen <= c.stored.Keys
      invariant forall x :: x in seen && c.stored[x].Some? ==> c.stored[x].value in seen + {at}
      decreases c.stored.Keys - seen
    {
      if at in c.bound {
        assert ResolvesBy(c, id, c.bound[at], p);
        return Some(c.bound[at]);
      }
      if at !in c.stored || c.stored[at].None? {
        ClosedUnresolvable(c, id, seen + {at});
        return None;
      }
      var next := c.stored[at].value;
      ClimbExtends(c.stored, p, next);
      p := p + [next];
      seen := seen + {at};
      at := next;
    }
    ClosedUnresolvable(c, id, seen);
    return None;
  }

  // storeOpenCodeSession: needs a usable checkout; a root session is bound to it
  // unless it is bound already, to whomever.
  function Store(w: World, c: Catalogue, id: Id, s: Session): Option<Catalogue> {
    if s.directory !in w.checkouts then None
    else
      var binds := s.parent.None? && id !in c.bound && id !in c.foreign;
      Some(c.(stored := c.stored[id := s.parent], bound := if binds then c.bound[id := w.checkouts[s.directory]] else c.bound))
  }

  // Storing a list of sessions one after the other, if every store succeeds.
  function StoreAll(w: World, c: Catalogue, ids: seq<Id>): Option<Catalogue> {
    if ids == [] then Some(c)
    else
      var before, last := StoreAll(w, c, ids[..|ids| - 1]), ids[|ids| - 1];
      if before.None? || last !in w.sessions then None else Store(w, before.value, last, w.sessions[last])
  }

  lemma {:induction false} StoreAllConcat(w: World, c: Catalogue, a: seq<Id>, b: seq<Id>)
    requires StoreAll(w, c, a).Some?
    ensures StoreAll(w, c, a + b) == StoreAll(w, StoreAll(w, c, a).value, b)
  {
    if b == [] {
      assert a + b == a;
    } else {
      var n := |b| - 1;
      assert (a + b)[..|a| + n] == a + b[..n];
      StoreAllConcat(w, c, a, b[..n]);
    }
  }

  // The sessions of children[n..], from the top down, were stored; the next one
  // up for storing was refused.
  ghost predicate StoppedAt(w: World, c0: Catalogue, c: Catalogue, children: seq<Id>, log: seq<Id>, n: nat) {
    && 0 < n <= |children| && log == Reversed(children[n..]) && StoreAll(w, c0, log) == Some(c)
    && children[n - 1] in w.sessions && Store(w, c, children[n - 1], w.sessions[children[n - 1]]).None?
  }

  // children[j]'s parent is children[j + 1], and the last one's is `top`.
  ghost predicate Linked(w: World, children: seq<Id>, top: Id, j: int) {
    0 <= j < |children| ==>
      && children[j] in w.sessions
      && w.sessions[children[j]].parent == Some(if j + 1 < |children| then children[j + 1] else top)
  }

  // The walked part: distinct children, linked upwards, none of them resolvable.
  ghost predicate Walked(w: World, c: Catalogue, id: Id, children: seq<Id>, top: Id) {
    && (if children == [] then top == id else children[0] == id)
    && Distinct(children)
    && (forall j :: Linked(w, children, top, j))
    && (forall j :: 0 <= j < |children| ==> Unresolvable(c, children[j]))
  }

  // What the first k of the children, counted from the top, add when stored.
  ghost predicate Catalogued(w: World, before: Catalogue, after: Catalogue, children: set<Id>) {
    && after.bound == before.bound && after.foreign == before.foreign
    && after.stored.Keys == before.stored.Keys + children
    && (forall x :: x in children ==> x in w.sessions && after.stored[x] == w.sessions[x].parent)
    && (forall x :: x in before.stored && x !in children ==> after.stored[x] == before.stored[x])
  }

  function Reversed(s: seq<Id>): seq<Id> {
    if s == [] then [] else [s[|s| - 1]] + Reversed(s[..|s| - 1])
  }

  // Parents first: the children are stored from the top of the walk down.
  method StoreChildren(w: World, c0: Catalogue, children: seq<Id>) returns (ok: bool, c: Catalogue, log: seq<Id>)
    requires forall j :: 0 <= j < |children| ==> children[j] in w.sessions && w.sessions[children[j]].parent.Some?
    ensures StoreAll(w, c0, log) == Some(c)
    ensures ok ==> log == Reversed(children) && Catalogued(w, c0, c, Elements(children))
    ensures !ok ==> exists n :: StoppedAt(w, c0, c, children, log, n)
  {
    c, log := c0, [];
    var n := |children|;
    assert children[n..] == [];
    while n > 0
      invariant n <= |children|
      invariant log == Reversed(children[n..]) && StoreAll(w, c0, log) == Some(c)
      invariant Catalogued(w, c0, c, Elements(children[n..]))
    {
      var child := children[n - 1];
      var stored := Store(w, c, child, w.sessions[child]);
      if stored.None? {
        assert StoppedAt(w, c0, c, children, log, n);
        return false, c, log;
      }
      SuffixGrow(children, n);
      CataloguedStep(w, c0, c, Elements(children[n..]), child);
      assert (log + [child])[..|log|] == log;
      c, log, n := stored.value, log + [child], n - 1;
    }
    assert children[0..] == children;
    ok := true;
  }

  lemma CataloguedStep(w: World, before: Catalogue, c: Catalogue, children: set<Id>, child: Id)
    requires Catalogued(w, before, c, children) && child in w.sessions && w.sessions[child].parent.Some?
    requires Store(w, c, child, w.sessions[child]).Some?
    ensures Catalogued(w, before, Store(w, c, child, w.sessions[child]).value, children + {child})
  {
  }

  lemma SuffixGrow(s: seq<Id>, n: nat)
    requires 0 < n <= |s|
    ensures Reversed(s[n - 1..]) == Reversed(s[n..]) + [s[n - 1]]
    ensures Elements(s[n - 1..]) == Elements(s[n..]) + {s[n - 1]}
  {
    assert s[n - 1..] == [s[n - 1]] + s[n..];
    ElementsGrow(s[n..], s[n - 1]);
    ReversedCons(s[n - 1], s[n..]);
  }

  lemma {:induction false} ReversedCons(x: Id, s: seq<Id>)
    ensures Reversed([x] + s) == Reversed(s) + [x]
  {
    if s != [] {
      var m := |s| - 1;
      assert ([x] + s)[..|s|] == [x] + s[..m];
      ReversedCons(x, s[..m]);
    } else {
      assert [x] + s == [x];
    }
  }

  // In the stored order every child comes right after its parent, the first one
  // after the resolved ancestor itself.
  ghost predicate TopDown(w: World, log: seq<Id>, top: Id, k: int) {
    0 <= k < |log| ==>
      log[k] in w.sessions && w.sessions[log[k]].parent == Some(if k == 0 then top else log[k - 1])
  }

  lemma {:induction false} ReversedAt(s: seq<Id>, k: nat)
    requires k < |s|
    ensures |Reversed(s)| == |s| && Reversed(s)[k] == s[|s| - 1 - k]
    decreases |s|
  {
    if |s| > 1 {
      ReversedAt(s[..|s| - 1], if k == 0 then 0 else k - 1);
    }
  }

  lemma StoredTopDown(w: World, children: seq<Id>, top: Id)
    requires forall j :: Linked(w, children, top, j)
    ensures forall k :: TopDown(w, Reversed(children), top, k)
  {
    forall k ensures TopDown(w, Reversed(children), top, k) {
      if 0 <= k < |children| {
        var j := |children| - 1 - k;
        ReversedAt(children, k);
        assert Linked(w, children, top, j);
        if k > 0 { ReversedAt(children, k - 1); }
      } else if children != [] {
        ReversedAt(children, 0);
      }
    }
  }

  // The catalogue at the moment an ancestor resolves: unchanged, or with the
  // walk's parentless root added.
  ghost predicate RootOnly(w: World, before: Catalogue, after: Catalogue, log: seq<Id>) {
    || (log == [] && after == before)
    || (exists root :: log == [root] && root in w.sessions && w.sessions[root].parent.None?
          && Store(w, before, root, w.sessions[root]) == Some(after))
  }

  lemma SuffixResolves(c: Catalogue, tree: Tree, p: seq<Id>, k: nat)
    requires k < |p| && ResolvesBy(c, p[0], tree, p)
    ensures Resolves(c, p[k], tree)
  {
    var q := p[k..];
    forall i ensures Up(c.stored, q, i) { assert Up(c.stored, p, k + i); }
    assert ResolvesBy(c, p[k], tree, q);
  }

  // A climb from the resolved ancestor never comes back to a walked child.
  lemma ClimbAvoidsChildren(w: World, c0: Catalogue, c1: Catalogue, roots: seq<Id>, id: Id,
                            children: seq<Id>, top: Id, tree: Tree, p: seq<Id>, k: nat)
    requires Walked(w, c0, id, children, top) && RootOnly(w, c0, c1, roots) && ResolvesBy(c1, top, tree, p)
    requires roots != [] ==> roots == [top]
    requires k < |p|
    ensures p[k] !in children
  {
    if roots == [] {
      SuffixResolves(c0, tree, p, k);
    } else {
      assert Up(c1.stored, p, 1);
    }
    forall j | 0 <= j < |children| ensures children[j] != p[k] {
      assert Linked(w, children, top, j);
      assert Unresolvable(c0, children[j]);
    }
  }

  // After the children are stored, the catalogue alone resolves the session.
  lemma CataloguedResolves(w: World, c0: Catalogue, c1: Catalogue, c2: Catalogue, roots: seq<Id>, id: Id,
                           children: seq<Id>, top: Id, tree: Tree)
    requires Walked(w, c0, id, children, top) && RootOnly(w, c0, c1, roots) && Resolves(c1, top, tree)
    requires roots != [] ==> roots == [top]
    requires Catalogued(w, c1, c2, Elements(children))
    ensures Resolves(c2, id, tree)
  {
    var p :| ResolvesBy(c1, top, tree, p);
    var q := children + p;
    forall i ensures Up(c2.stored, q, i) {
      if 0 < i <= |children| {
        assert Linked(w, children, top, i - 1);
        assert children[i - 1] in Elements(children);
        assert q[i - 1] == children[i - 1];
      } else if |children| < i < |q| {
        var k := i - |children|;
        assert Up(c1.stored, p, k);
        ClimbAvoidsChildren(w, c0, c1, roots, id, children, top, tree, p, k - 1);
      }
    }
    assert q[|q| - 1] == p[|p| - 1];
    assert ResolvesBy(c2, id, tree, q);
  }

  // What justifies storing the walked children: the walk from id to top went
  // through them, and from the catalogue as it was, or with the parentless root
  // just stored, top resolves to the checkout they all belong to.
  ghost predicate Backed(w: World, c0: Catalogue, id: Id, roots: seq<Id>, children: seq<Id>, top: Id, tree: Tree) {
    && Walked(w, c0, id, children, top) && ChildrenBelong(w, children, tree)
    && exists c1 :: RootOnly(w, c0, c1, roots) && Resolves(c1, top, tree)
  }

  // The log of a store that was refused while the children were stored.
  ghost predicate Interrupted(w: World, c0: Catalogue, c: Catalogue, roots: seq<Id>, children: seq<Id>, log: seq<Id>) {
    exists c1, order, n :: StoreAll(w, c0, roots) == Some(c1) && log == roots + order && StoppedAt(w, c1, c, children, order, n)
  }

  // What every resolution leaves behind.
  ghost predicate Justified(w: World, c0: Catalogue, id: Id, outcome: Outcome, c: Catalogue, log: seq<Id>,
                            roots: seq<Id>, children: seq<Id>, top: Id) {
    // the catalogue is what the logged stores made of it, in that order
    && StoreAll(w, c0, log) == Some(c)
    && match outcome
       // an ancestor resolved, all children were stored top down, and the session
       // resolves from the catalogue alone
       case Found(tree) =>
         Backed(w, c0, id, roots, children, top, tree) && log == roots + Reversed(children) && Resolves(c, id, tree)
       // no child was stored: the walk closed or left the engine's sessions, its
       // root belongs to somebody else, or a child lies outside the resolved checkout
       case NotFound =>
         && log == roots && RootOnly(w, c0, c, roots) && Walked(w, c0, id, children, top)
         && (|| (c == c0 && Unresolvable(c0, top) && (top in children || top !in w.sessions))
             || (roots == [top] && top in c0.foreign && Unresolvable(c, top))
             || exists tree :: Resolves(c, top, tree) && !ChildrenBelong(w, children, tree))
       // the walk reached a parentless root that was refused, with nothing stored,
       // or an ancestor resolved and a child was refused after those above it
       case StoreFailed =>
         || (log == [] && c == c0 && Unresolvable(c0, id) && Walked(w, c0, id, children, top)
             && top in w.sessions && w.sessions[top].parent.None? && Store(w, c0, top, w.sessions[top]).None?)
         || (Interrupted(w, c0, c, roots, children, log) && exists tree :: Backed(w, c0, id, roots, children, top, tree))
  }

  // The whole resolution. The ghost results name the walked children and the
  // ancestor that resolved.
  method ResolveSession(w: World, c0: Catalogue, id: Id)
    returns (outcome: Outcome, c: Catalogue, log: seq<Id>, ghost roots: seq<Id>, ghost children: seq<Id>, ghost top: Id)
    ensures StoreAll(w, c0, log) == Some(c) && (outcome.Found? ==> Resolves(c, id, outcome.tree))
    ensures !Unresolvable(c0, id) ==> outcome.Found? && c == c0 && log == []
    ensures outcome.StoreFailed? ==> exists x :: x in w.sessions && Store(w, c, x, w.sessions[x]).None?
    ensures Justified(w, c0, id, outcome, c, log, roots, children, top)
    ensures forall k :: TopDown(w, Reversed(children), top, k)
  {
    c, log, roots, children, top := c0, [], [], [], id;
    StoredTopDown(w, [], id);
    var row := Query(c0, id);
    if row.Some? {
      assert Backed(w, c0, id, [], [], id, row.value);
      return Found(row.value), c, log, roots, children, top;
    }
    var at := id;
    var walked: seq<Id> := [];
    var seen := {};
    while true
      invariant c == c0 && log == [] && roots == [] && children == [] && top == id
      invariant Walked(w, c0, id, walked, at) && Unresolvable(c0, at) && Unresolvable(c0, id)
      invariant seen == Elements(walked) && seen <= w.sessions.Keys
      decreases w.sessions.Keys - seen
    {
      if at in seen || at !in w.sessions {
        StoredTopDown(w, walked, at);
        return NotFound, c, log, roots, walked, at;
      }
      var session := w.sessions[at];
      if session.parent.None? {
        outcome, c, log, roots, children, top := FinishAtRoot(w, c0, id, walked, at);
        return;
      }
      WalkedStep(w, c0, id, walked, at, session.parent.value);
      walked, seen, at := walked + [at], seen + {at}, session.parent.value;
      row := Query(c0, at);
      if row.Some? {
        outcome, c, log := Finish(w, c0, c0, [], id, walked, at, row.value);
        children, top := walked, at;
        StoredTopDown(w, walked, at);
        return;
      }
    }
  }

  ghost predicate ChildrenBelong(w: World, children: seq<Id>, tree: Tree) {
    forall j :: 0 <= j < |children| ==> children[j] in w.sessions && w.sessions[children[j]].clean == tree.directory
  }

  lemma WalkedStep(w: World, c: Catalogue, id: Id, walked: seq<Id>, at: Id, parent: Id)
    requires Walked(w, c, id, walked, at) && Unresolvable(c, at) && at !in walked
    requires at in w.sessions && w.sessions[at].parent == Some(parent)
    ensures Walked(w, c, id, walked + [at], parent)
    ensures Elements(walked + [at]) == Elements(walked) + {at}
  {
    var more := walked + [at];
    ElementsGrow(walked, at);
    forall j ensures Linked(w, more, parent, j) { assert Linked(w, walked, at, j); }
    forall j | 0 <= j < |more| ensures Unresolvable(c, more[j]) {
      if j < |walked| { assert more[j] == walked[j]; }
    }
  }

  // An ancestor resolved: check the directories, then store the children.
  method Finish(w: World, ghost c0: Catalogue, c1: Catalogue, roots: seq<Id>, id: Id, walked: seq<Id>, top: Id, tree: Tree)
    returns (outcome: Outcome, c: Catalogue, log: seq<Id>)
    requires Walked(w, c0, id, walked, top) && RootOnly(w, c0, c1, roots) && Resolves(c1, top, tree)
    requires roots != [] ==> roots == [top]
    ensures Justified(w, c0, id, outcome, c, log, roots, walked, top)
    ensures outcome.Found? ==> outcome.tree == tree
    ensures outcome.NotFound? <==> !ChildrenBelong(w, walked, tree)
  {
    c, log := c1, roots;
    for j := 0 to |walked|
      invariant forall k :: 0 <= k < j ==> walked[k] in w.sessions && w.sessions[walked[k]].clean == tree.directory
    {
      assert Linked(w, walked, top, j);
      if w.sessions[walked[j]].clean != tree.directory {
        return NotFound, c, log;
      }
    }
    forall j | 0 <= j < |walked| ensures walked[j] in w.sessions && w.sessions[walked[j]].parent.Some? {
      assert Linked(w, walked, top, j);
    }
    var ok, stored, order := StoreChildren(w, c1, walked);
    c, log := stored, roots + order;
    RootStored(w, c0, c1, roots);
    StoreAllConcat(w, c0, roots, order);
    assert Backed(w, c0, id, roots, walked, top, tree);
    if !ok {
      assert Interrupted(w, c0, c, roots, walked, log);
      return StoreFailed, c, log;
    }
    CataloguedResolves(w, c0, c1, c, roots, id, walked, top, tree);
    outcome := Found(tree);
  }

  lemma RootStored(w: World, c0: Catalogue, c1: Catalogue, roots: seq<Id>)
    requires RootOnly(w, c0, c1, roots)
    ensures StoreAll(w, c0, roots) == Some(c1)
  {
    if roots != [] { assert roots[..0] == []; }
  }

  // The walk reached a session without parent: it is stored and bound, whether
  // or not the children then belong to its checkout; if it is bound to somebody
  // else's checkout it stays so and does not resolve.
  method FinishAtRoot(w: World, c0: Catalogue, id: Id, walked: seq<Id>, root: Id)
    returns (outcome: Outcome, c: Catalogue, log: seq<Id>, ghost roots: seq<Id>, ghost children: seq<Id>, ghost top: Id)
    requires Walked(w, c0, id, walked, root) && root in w.sessions && w.sessions[root].parent.None?
    requires Unresolvable(c0, id)
    ensures StoreAll(w, c0, log) == Some(c) && (outcome.Found? ==> Resolves(c, id, outcome.tree))
    ensures Justified(w, c0, id, outcome, c, log, roots, children, top)
    ensures forall k :: TopDown(w, Reversed(children), top, k)
  {
    c, log, roots, children, top := c0, [], [], [], root;
    StoredTopDown(w, [], root);
    var stored := Store(w, c0, root, w.sessions[root]);
    if stored.None? {
      StoredTopDown(w, walked, root);
      return StoreFailed, c, log, roots, walked, root;
    }
    c, log, roots := stored.value, [root], [root];
    assert RootOnly(w, c0, c, [root]);
    RootStored(w, c0, c, [root]);
    var row := Query(c, root);
    if row.None? {
      // bound by now unless it is somebody else's
      if root in c.bound { assert ResolvesBy(c, root, c.bound[root], [root]) && Resolves(c, root, c.bound[root]); }
      StoredTopDown(w, walked, root);
      return NotFound, c, log, roots, walked, root;
    }
    outcome, c, log := Finish(w, c0, c, [root], id, walked, root, row.value);
    children := walked;
    StoredTopDown(w, walked, root);
  }
}
