/** Parent links of threads, and the recursive `visit` that accepts exactly one rooted tree. */
module ThreadForest {
  import opened Lists
  import opened TokenUsage

  datatype Node = Node(session: string, parent: Option<string>, agentPath: Option<string>, spawned: seq<string>,
                       usage: Usage)

  ghost predicate DistinctSessions(nodes: seq<Node>) {
    forall i, j :: 0 <= i < j < |nodes| ==> nodes[i].session != nodes[j].session
  }

  function Sessions(nodes: seq<Node>): (s: set<string>) {
    set n | n in nodes :: n.session
  }

  /** `nodes[t]`. */
  function Lookup(nodes: seq<Node>, t: string): (r: Option<Node>)
    ensures r.Some? <==> t in Sessions(nodes)
    ensures r.Some? ==> r.value in nodes && r.value.session == t
  {
    if nodes == [] then None
    else
      assert nodes == [nodes[0]] + nodes[1..];
      if nodes[0].session == t then
        assert nodes[0] in nodes;
        Some(nodes[0])
      else
        var r := Lookup(nodes[1..], t);
        assert t in Sessions(nodes) <==> t in Sessions(nodes[1..]);
        r
  }

  lemma {:induction false} LookupOf(nodes: seq<Node>, n: Node)
    requires DistinctSessions(nodes) && n in nodes
    ensures Lookup(nodes, n.session) == Some(n)
  {
    var m := Lookup(nodes, n.session).value;
    var i :| 0 <= i < |nodes| && nodes[i] == n;
    var j :| 0 <= j < |nodes| && nodes[j] == m;
  }

  function ParentOf(nodes: seq<Node>, t: string): (p: Option<string>) {
    var n := Lookup(nodes, t);
    if n.None? then None else n.value.parent
  }

  function Children(nodes: seq<Node>, t: string): (c: seq<Node>)
    ensures forall n :: n in c <==> n in nodes && n.parent == Some(t)
  {
    Filter(nodes, (n: Node) => n.parent == Some(t))
  }

  /** The `k`-th ancestor of `t`. */
  ghost function Up(nodes: seq<Node>, t: string, k: nat): (a: Option<string>) {
    if k == 0 then Some(t)
    else match Up(nodes, t, k - 1)
      case None => None
      case Some(x) => ParentOf(nodes, x)
  }

  lemma {:induction false} UpAdds(nodes: seq<Node>, t: string, a: nat, b: nat)
    ensures Up(nodes, t, a + b) == match Up(nodes, t, a) { case None => None case Some(x) => Up(nodes, x, b) }
  {
    if b > 0 {
      UpAdds(nodes, t, a, b - 1);
      var below := Up(nodes, t, a + b - 1);
      assert Up(nodes, t, a + b) == if below.None? then None else ParentOf(nodes, below.value);
    }
  }

  /** `t` is a thread at or below `a`. */
  ghost predicate Below(nodes: seq<Node>, t: string, a: string) {
    t in Sessions(nodes) && exists k :: Up(nodes, t, k) == Some(a)
  }

  ghost function Subtree(nodes: seq<Node>, a: string): (s: set<string>) {
    set t | t in Sessions(nodes) && Below(nodes, t, a)
  }

  /** The children of a thread carry, as agent paths, exactly the names it spawned. */
  ghost predicate SpawnsMatch(nodes: seq<Node>, n: Node) {
    var c := Children(nodes, n.session);
    (forall i :: 0 <= i < |c| ==> c[i].agentPath.Some?) && multiset(Paths(c)) == multiset(n.spawned)
  }

  function Paths(c: seq<Node>): (s: seq<string>)
    ensures |s| == |c|
  {
    seq(|c|, i requires 0 <= i < |c| => if c[i].agentPath.Some? then c[i].agentPath.value else "")
  }

  /** One tree: nobody is the root's parent and every thread descends from the root. */
  ghost predicate RootedTree(nodes: seq<Node>, root: string) {
    && root in Sessions(nodes)
    && (ParentOf(nodes, root).Some? ==> ParentOf(nodes, root).value !in Sessions(nodes))
    && forall t :: t in Sessions(nodes) ==> Below(nodes, t, root)
  }

  ghost predicate AllMatch(nodes: seq<Node>) {
    forall n :: n in nodes ==> SpawnsMatch(nodes, n)
  }

  // ---------------------------------------------------------------- trees have no cycles

  lemma RootHasNoAncestor(nodes: seq<Node>, root: string, k: nat)
    requires RootedTree(nodes, root) && k > 0
    ensures Up(nodes, root, k).Some? ==> Up(nodes, root, k).value !in Sessions(nodes)
  {
    if k == 1 {
      assert Up(nodes, root, 1) == ParentOf(nodes, root) by { assert Up(nodes, root, 0) == Some(root); }
    } else {
      RootHasNoAncestor(nodes, root, k - 1);
    }
  }

  lemma NoCycle(nodes: seq<Node>, root: string, t: string, p: nat)
    requires RootedTree(nodes, root) && t in Sessions(nodes) && p > 0
    ensures Up(nodes, t, p) != Some(t)
  {
    var k: nat :| Up(nodes, t, k) == Some(root);
    UpAdds(nodes, t, p, k);
    UpAdds(nodes, t, k, p);
    assert k + p == p + k;
    RootHasNoAncestor(nodes, root, p);
  }

  ghost predicate Acyclic(nodes: seq<Node>) {
    forall t, p: nat :: t in Sessions(nodes) && p > 0 ==> Up(nodes, t, p) != Some(t)
  }

  lemma TreeIsAcyclic(nodes: seq<Node>, root: string)
    requires RootedTree(nodes, root)
    ensures Acyclic(nodes)
  {
    forall t, p: nat | t in Sessions(nodes) && p > 0
      ensures Up(nodes, t, p) != Some(t)
    {
      NoCycle(nodes, root, t, p);
    }
  }

  lemma ChildUp(nodes: seq<Node>, c: Node, k: nat)
    requires DistinctSessions(nodes) && c in nodes && c.parent.Some? && k > 0
    ensures Up(nodes, c.session, 1) == c.parent
    ensures Up(nodes, c.session, k) == Up(nodes, c.parent.value, k - 1)
  {
    LookupOf(nodes, c);
    assert Up(nodes, c.session, 0) == Some(c.session);
    UpAdds(nodes, c.session, 1, k - 1);
  }

  /** A thread's subtree is the thread itself and the subtrees of its children. */
  lemma SubtreeParts(nodes: seq<Node>, a: string)
    requires DistinctSessions(nodes) && a in Sessions(nodes)
    ensures a in Subtree(nodes, a)
    ensures forall c :: c in Children(nodes, a) ==> Subtree(nodes, c.session) <= Subtree(nodes, a)
    ensures forall t :: t in Subtree(nodes, a) && t != a ==>
                          exists c :: c in Children(nodes, a) && t in Subtree(nodes, c.session)
  {
    assert Up(nodes, a, 0) == Some(a);
    forall c, t | c in Children(nodes, a) && t in Subtree(nodes, c.session)
      ensures t in Subtree(nodes, a)
    {
      var k: nat :| Up(nodes, t, k) == Some(c.session);
      UpAdds(nodes, t, k, 1);
      ChildUp(nodes, c, 1);
      assert Up(nodes, t, k + 1) == Some(a);
    }
    forall t | t in Subtree(nodes, a) && t != a
      ensures exists c :: c in Children(nodes, a) && t in Subtree(nodes, c.session)
    {
      var k: nat :| Up(nodes, t, k) == Some(a);
      assert k > 0;
      LastStep(nodes, t, a, k);
    }
  }

  lemma LastStep(nodes: seq<Node>, t: string, a: string, k: nat)
    requires t in Sessions(nodes) && k > 0 && Up(nodes, t, k) == Some(a)
    ensures exists c :: c in Children(nodes, a) && t in Subtree(nodes, c.session)
  {
    var x := Up(nodes, t, k - 1).value;
    var c := Lookup(nodes, x).value;
    assert c in Children(nodes, a);
    assert Up(nodes, t, k - 1) == Some(c.session);
  }

  /** Without cycles, no child is an ancestor of a child of the same parent. */
  lemma {:induction false} SiblingNotAbove(nodes: seq<Node>, a: string, c: Node, d: Node, n: nat)
    requires DistinctSessions(nodes) && Acyclic(nodes) && a in Sessions(nodes)
    requires c in Children(nodes, a) && d in Children(nodes, a)
    ensures Up(nodes, c.session, n + 1) != Some(d.session)
  {
    ChildUp(nodes, c, n + 1);
    UpAdds(nodes, a, n, 1);
    ChildUp(nodes, d, 1);
  }

  lemma {:induction false} PastNotThere(nodes: seq<Node>, t: string, i: nat, n: nat, c: string, d: string)
    requires Up(nodes, t, i) == Some(c) && Up(nodes, c, n + 1) != Some(d)
    ensures Up(nodes, t, i + n + 1) != Some(d)
  {
    UpAdds(nodes, t, i, n + 1);
    assert i + n + 1 == i + (n + 1);
  }

  /** Nothing above `c` is `d`. */
  ghost predicate NotAbove(nodes: seq<Node>, c: string, d: string) {
    forall n: nat :: n > 0 ==> Up(nodes, c, n) != Some(d)
  }

  lemma {:induction false} SiblingsNotAbove(nodes: seq<Node>, a: string, c: Node, d: Node)
    requires DistinctSessions(nodes) && Acyclic(nodes) && a in Sessions(nodes)
    requires c in Children(nodes, a) && d in Children(nodes, a)
    ensures NotAbove(nodes, c.session, d.session)
  {
    forall n: nat | n > 0
      ensures Up(nodes, c.session, n) != Some(d.session)
    {
      SiblingNotAbove(nodes, a, c, d, n - 1);
    }
  }

  lemma {:induction false} OneBranch(nodes: seq<Node>, c: string, d: string, t: string, i: nat, j: nat)
    requires NotAbove(nodes, c, d) && c != d && Up(nodes, t, i) == Some(c) && i <= j
    ensures Up(nodes, t, j) != Some(d)
  {
    if i < j {
      PastNotThere(nodes, t, i, j - i - 1, c, d);
    }
  }

  /** Without cycles, the subtrees of two children are disjoint. */
  lemma {:induction false} ChildrenApart(nodes: seq<Node>, a: string, c: Node, d: Node)
    requires DistinctSessions(nodes) && Acyclic(nodes) && a in Sessions(nodes)
    requires c in Children(nodes, a) && d in Children(nodes, a) && c.session != d.session
    ensures Subtree(nodes, c.session) !! Subtree(nodes, d.session)
  {
    SiblingsNotAbove(nodes, a, c, d);
    SiblingsNotAbove(nodes, a, d, c);
    forall t | t in Subtree(nodes, c.session)
      ensures t !in Subtree(nodes, d.session)
    {
      var i: nat :| Up(nodes, t, i) == Some(c.session);
      forall j: nat
        ensures Up(nodes, t, j) != Some(d.session)
      {
        if i <= j {
          OneBranch(nodes, c.session, d.session, t, i, j);
        } else if Up(nodes, t, j) == Some(d.session) {
          OneBranch(nodes, d.session, c.session, t, j, i);
        }
      }
    }
  }

  lemma {:induction false} ParentApart(nodes: seq<Node>, a: string, c: Node)
    requires DistinctSessions(nodes) && Acyclic(nodes) && a in Sessions(nodes) && c in Children(nodes, a)
    ensures a !in Subtree(nodes, c.session)
  {
    forall k: nat
      ensures Up(nodes, a, k) != Some(c.session)
    {
      UpAdds(nodes, a, k, 1);
      ChildUp(nodes, c, 1);
    }
  }

  // ---------------------------------------------------------------- the recursive visit

  /** What a successful visit of `thread` has established about one newly visited thread. */
  ghost predicate Visited(nodes: seq<Node>, thread: string, gained: set<string>, x: string) {
    && Below(nodes, x, thread)
    && (forall n :: n in nodes && n.session == x ==> SpawnsMatch(nodes, n))
    && forall c :: c in Children(nodes, x) ==> c.session in gained && c.session != thread
  }

  ghost predicate AllVisited(nodes: seq<Node>, thread: string, gained: set<string>) {
    forall x :: x in gained ==> Visited(nodes, thread, gained, x)
  }

  /** A visit is bound to succeed: no cycles, all spawns match, and nothing below is visited yet. */
  ghost predicate Promising(nodes: seq<Node>, thread: string, visited: set<string>) {
    Acyclic(nodes) && AllMatch(nodes) && visited !! Subtree(nodes, thread)
  }

  ghost function Subtrees(nodes: seq<Node>, c: seq<Node>, i: nat): (s: set<string>)
    requires i <= |c|
  {
    if i == 0 then {} else Subtrees(nodes, c, i - 1) + Subtree(nodes, c[i - 1].session)
  }

  lemma {:induction false} SubtreesMember(nodes: seq<Node>, c: seq<Node>, i: nat, t: string)
    requires i <= |c|
    ensures t in Subtrees(nodes, c, i) <==> exists j :: 0 <= j < i && t in Subtree(nodes, c[j].session)
  {
    if i > 0 {
      SubtreesMember(nodes, c, i - 1, t);
    }
  }

  /** The subtree of a thread is the thread and the subtrees of all its children. */
  lemma SubtreeIsUnion(nodes: seq<Node>, a: string)
    requires DistinctSessions(nodes) && a in Sessions(nodes)
    ensures var c := Children(nodes, a);
            Subtree(nodes, a) == {a} + Subtrees(nodes, c, |c|)
  {
    var c := Children(nodes, a);
    SubtreeParts(nodes, a);
    forall t
      ensures t in Subtree(nodes, a) <==> t == a || t in Subtrees(nodes, c, |c|)
    {
      SubtreesMember(nodes, c, |c|, t);
      if t in Subtree(nodes, a) && t != a {
        var n :| n in c && t in Subtree(nodes, n.session);
        var j :| 0 <= j < |c| && c[j] == n;
      }
      if j :| 0 <= j < |c| && t in Subtree(nodes, c[j].session) {
        assert c[j] in c;
      }
    }
  }

  lemma {:induction false} FilterDistinct(nodes: seq<Node>, p: Node -> bool)
    requires DistinctSessions(nodes)
    ensures DistinctSessions(Filter(nodes, p))
  {
    if nodes != [] {
      var h, t, rest := nodes[0], nodes[1..], Filter(nodes[1..], p);
      FilterDistinct(t, p);
      forall j | 0 <= j < |rest|
        ensures rest[j].session != h.session
      {
        assert rest[j] in rest;
        var k :| 0 <= k < |t| && t[k] == rest[j];
        assert nodes[k + 1] == t[k];
      }
    }
  }

  /** When the earlier children are done, the next child is still untouched. */
  lemma NextChildPromising(nodes: seq<Node>, a: string, visited: set<string>, i: nat)
    requires DistinctSessions(nodes) && a in Sessions(nodes) && Promising(nodes, a, visited)
    requires i < |Children(nodes, a)|
    ensures var c := Children(nodes, a);
            Promising(nodes, c[i].session, visited + {a} + Subtrees(nodes, c, i))
  {
    var c := Children(nodes, a);
    assert c[i] in c;
    SubtreeParts(nodes, a);
    ParentApart(nodes, a, c[i]);
    forall t | t in Subtrees(nodes, c, i)
      ensures t !in Subtree(nodes, c[i].session)
    {
      SubtreesMember(nodes, c, i, t);
      var j :| 0 <= j < i && t in Subtree(nodes, c[j].session);
      assert c[j] in c;
      FilterDistinct(nodes, (n: Node) => n.parent == Some(a));
      ChildrenApart(nodes, a, c[j], c[i]);
    }
  }

  lemma BelowChild(nodes: seq<Node>, a: string, c: Node, x: string)
    requires DistinctSessions(nodes) && a in Sessions(nodes) && c in Children(nodes, a) && Below(nodes, x, c.session)
    ensures Below(nodes, x, a)
  {
    SubtreeParts(nodes, a);
    assert x in Subtree(nodes, c.session);
  }

  /** The spawn check: agent paths of the children against the spawned names, as multisets. */
  method CheckSpawns(nodes: seq<Node>, thread: string) returns (ok: bool)
    requires DistinctSessions(nodes) && thread in Sessions(nodes)
    ensures ok <==> forall n :: n in nodes && n.session == thread ==> SpawnsMatch(nodes, n)
  {
    var n := Lookup(nodes, thread).value;
    forall m | m in nodes && m.session == thread
      ensures m == n
    {
      LookupOf(nodes, m);
    }
    var c := Children(nodes, thread);
    ok := (forall i :: 0 <= i < |c| ==> c[i].agentPath.Some?) && multiset(Paths(c)) == multiset(n.spawned);
  }

  /** `visit`: refuses a repeated thread or a spawn mismatch, and otherwise covers the whole subtree. */
  method Visit(nodes: seq<Node>, thread: string, visited: set<string>) returns (ok: bool, after: set<string>)
    requires DistinctSessions(nodes) && thread in Sessions(nodes) && visited <= Sessions(nodes)
    ensures visited <= after <= Sessions(nodes)
    ensures ok ==> thread !in visited && thread in after && AllVisited(nodes, thread, after - visited)
    ensures Promising(nodes, thread, visited) ==> ok && after == visited + Subtree(nodes, thread)
    decreases Sessions(nodes) - visited
  {
    SubtreeIsUnion(nodes, thread);
    ghost var promising := Promising(nodes, thread, visited);
    if thread in visited {
      return false, visited;
    }
    after := visited + {thread};
    var matches := CheckSpawns(nodes, thread);
    if !matches {
      return false, after;
    }
    var c := Children(nodes, thread);
    for i := 0 to |c|
      invariant Partial(nodes, thread, visited, after, c[..i])
      invariant promising ==> after == visited + {thread} + Subtrees(nodes, c, i)
    {
      TakeOneMore(c, i);
      var before := after;
      if promising {
        NextChildPromising(nodes, thread, visited, i);
      }
      ok, after := Visit(nodes, c[i].session, before);
      if !ok {
        return;
      }
      if promising {
        NextSubtree(nodes, c, i, visited + {thread}, before, after);
      }
      PartialNext(nodes, thread, visited, before, after, c[..i], c[i]);
    }
    assert c[..|c|] == c;
    Completed(nodes, thread, visited, after);
    ok := true;
  }

  /** Partway through the children: everything gained so far is accounted for, except the thread itself. */
  ghost predicate Partial(nodes: seq<Node>, thread: string, visited: set<string>, after: set<string>, done: seq<Node>) {
    && visited + {thread} <= after <= Sessions(nodes)
    && Gained(done, thread, after - visited)
    && OthersVisited(nodes, thread, visited, after)
  }

  ghost predicate OthersVisited(nodes: seq<Node>, thread: string, visited: set<string>, after: set<string>) {
    forall x :: x in after - visited && x != thread ==> Visited(nodes, thread, after - visited, x)
  }

  lemma PartialNext(nodes: seq<Node>, thread: string, visited: set<string>, before: set<string>, after: set<string>,
                    done: seq<Node>, c: Node)
    requires DistinctSessions(nodes) && thread in Sessions(nodes) && c in Children(nodes, thread) && thread !in visited
    requires Partial(nodes, thread, visited, before, done) && before <= after <= Sessions(nodes)
    requires c.session !in before && c.session in after && AllVisited(nodes, c.session, after - before)
    ensures Partial(nodes, thread, visited, after, done + [c])
  {
    GainedGrows(done, c, thread, before - visited, after - visited);
    Widen(nodes, thread, c, visited, before, after);
  }

  lemma Completed(nodes: seq<Node>, thread: string, visited: set<string>, after: set<string>)
    requires thread in Sessions(nodes) && thread !in visited
    requires forall n :: n in nodes && n.session == thread ==> SpawnsMatch(nodes, n)
    requires Partial(nodes, thread, visited, after, Children(nodes, thread))
    ensures AllVisited(nodes, thread, after - visited)
  {
    SelfVisited(nodes, thread, after - visited);
    forall x | x in after - visited
      ensures Visited(nodes, thread, after - visited, x)
    {
    }
  }

  lemma NextSubtree(nodes: seq<Node>, c: seq<Node>, i: nat, start: set<string>, before: set<string>, after: set<string>)
    requires i < |c| && before == start + Subtrees(nodes, c, i) && after == before + Subtree(nodes, c[i].session)
    ensures after == start + Subtrees(nodes, c, i + 1)
  {
  }

  ghost predicate Gained(c: seq<Node>, thread: string, gained: set<string>) {
    forall n :: n in c ==> n.session in gained && n.session != thread
  }

  lemma GainedGrows(c: seq<Node>, d: Node, thread: string, a: set<string>, b: set<string>)
    requires Gained(c, thread, a) && a <= b && d.session in b && d.session != thread
    ensures Gained(c + [d], thread, b)
  {
  }

  lemma SelfVisited(nodes: seq<Node>, thread: string, gained: set<string>)
    requires thread in Sessions(nodes) && thread in gained
    requires forall n :: n in nodes && n.session == thread ==> SpawnsMatch(nodes, n)
    requires Gained(Children(nodes, thread), thread, gained)
    ensures Visited(nodes, thread, gained, thread)
  {
    assert Up(nodes, thread, 0) == Some(thread);
  }

  lemma Widen(nodes: seq<Node>, thread: string, c: Node, visited: set<string>, before: set<string>, after: set<string>)
    requires DistinctSessions(nodes) && thread in Sessions(nodes) && c in Children(nodes, thread)
    requires visited + {thread} <= before <= after && thread !in visited
    requires AllVisited(nodes, c.session, after - before)
    requires OthersVisited(nodes, thread, visited, before)
    ensures OthersVisited(nodes, thread, visited, after)
  {
    forall x | x in after - visited && x != thread
      ensures Visited(nodes, thread, after - visited, x)
    {
      if x in before {
        assert Visited(nodes, thread, before - visited, x);
      } else {
        assert Visited(nodes, c.session, after - before, x);
        BelowChild(nodes, thread, c, x);
      }
    }
  }

  /** The visit from the root reaches every thread exactly for one rooted tree whose spawns match. */
  method VisitAll(nodes: seq<Node>, root: string) returns (ok: bool)
    requires DistinctSessions(nodes) && root in Sessions(nodes)
    ensures ok <==> RootedTree(nodes, root) && AllMatch(nodes)
  {
    var good, visited := Visit(nodes, root, {});
    ok := good && visited == Sessions(nodes);
    assert visited - {} == visited;
    if ok {
      VisitedIsTree(nodes, root);
    }
    if RootedTree(nodes, root) && AllMatch(nodes) {
      TreeIsAcyclic(nodes, root);
      assert visited == Subtree(nodes, root);
    }
  }

  lemma VisitedIsTree(nodes: seq<Node>, root: string)
    requires DistinctSessions(nodes) && root in Sessions(nodes) && AllVisited(nodes, root, Sessions(nodes))
    ensures RootedTree(nodes, root) && AllMatch(nodes)
  {
    forall t | t in Sessions(nodes)
      ensures Below(nodes, t, root)
    {
      assert Visited(nodes, root, Sessions(nodes), t);
    }
    var n := Lookup(nodes, root).value;
    if n.parent.Some? {
      assert n in Children(nodes, n.parent.value);
      assert n.parent.value in Sessions(nodes) ==> Visited(nodes, root, Sessions(nodes), n.parent.value);
    }
    forall m | m in nodes
      ensures SpawnsMatch(nodes, m)
    {
      assert m.session in Sessions(nodes);
      assert Visited(nodes, root, Sessions(nodes), m.session);
    }
  }
}
