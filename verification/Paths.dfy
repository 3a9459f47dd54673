/** Paths in the conversation graph, and why walking up it always ends. */
module Paths {
  import opened Options
  import opened SessionTypes
  import opened Reducer

  /** `path` lists the nodes from `start` up to, and without, `ancestor`. */
  ghost predicate IsPath(
    nodes: map<Id, Node>, path: seq<Id>, start: Option<Id>, ancestor: Option<Id>, owner: Option<Id>)
  {
    if path == [] then start == ancestor
    else
      && start == Some(path[0]) && start != ancestor && path[0] in nodes
      && (owner.Some? ==> nodes[path[0]].operation == owner)
      && IsPath(nodes, path[1..], nodes[path[0]].parent, ancestor, owner)
  }

  ghost predicate Linked(nodes: map<Id, Node>, start: Option<Id>, ancestor: Option<Id>, owner: Option<Id>) {
    exists path :: IsPath(nodes, path, start, ancestor, owner)
  }

  ghost predicate Extends(nodes: map<Id, Node>, more: map<Id, Node>) {
    forall n :: n in nodes ==> n in more && more[n] == nodes[n]
  }

  lemma {:induction false} PathKept(
    nodes: map<Id, Node>, more: map<Id, Node>, path: seq<Id>,
    start: Option<Id>, ancestor: Option<Id>, owner: Option<Id>)
    requires Extends(nodes, more) && IsPath(nodes, path, start, ancestor, owner)
    ensures IsPath(more, path, start, ancestor, owner)
  {
    if path != [] {
      PathKept(nodes, more, path[1..], nodes[path[0]].parent, ancestor, owner);
    }
  }

  lemma LinkKept(
    nodes: map<Id, Node>, more: map<Id, Node>, start: Option<Id>, ancestor: Option<Id>, owner: Option<Id>)
    requires Extends(nodes, more) && Linked(nodes, start, ancestor, owner)
    ensures Linked(more, start, ancestor, owner)
  {
    var path :| IsPath(nodes, path, start, ancestor, owner);
    PathKept(nodes, more, path, start, ancestor, owner);
  }

  lemma {:induction false} WalkFindsPath(
    nodes: map<Id, Node>, start: Option<Id>, ancestor: Option<Id>, owner: Option<Id>, visited: set<Id>)
    ensures match WalkUp(nodes, start, ancestor, owner, visited)
      case Reached(path) => IsPath(nodes, path, start, ancestor, owner)
      case _ => true
    decreases nodes.Keys - visited
  {
    if start != ancestor && start.Some? && start.value !in visited && start.value in nodes {
      var n := start.value;
      WalkFindsPath(nodes, nodes[n].parent, ancestor, owner, visited + {n});
      var rest := WalkUp(nodes, nodes[n].parent, ancestor, owner, visited + {n});
      if rest.Reached? {
        assert ([n] + rest.path)[1..] == rest.path;
      }
    }
  }

  /** A ranking that grows away from the roots: what makes the graph a forest. */
  ghost predicate Ranked(nodes: map<Id, Node>, rank: map<Id, nat>) {
    forall n :: n in nodes ==>
      && n in rank
      && (nodes[n].parent.Some? ==>
            nodes[n].parent.value in nodes && nodes[n].parent.value in rank && rank[nodes[n].parent.value] < rank[n])
  }

  ghost predicate Forest(nodes: map<Id, Node>) {
    exists rank :: Ranked(nodes, rank)
  }

  lemma EmptyForest()
    ensures Forest(map[])
  {
    assert Ranked(map[], map[]);
  }

  /** A new node below an existing one, or a new root, keeps a forest a forest. */
  lemma ForestGrows(nodes: map<Id, Node>, node: Node)
    requires Forest(nodes) && node.id !in nodes && Known(nodes, node.parent)
    ensures Forest(nodes[node.id := node])
  {
    var rank :| Ranked(nodes, rank);
    var more := nodes[node.id := node];
    var height := if node.parent.Some? then rank[node.parent.value] + 1 else 0;
    assert Ranked(more, rank[node.id := height]);
  }

  /** Everything already visited lies strictly below the node about to be visited. */
  ghost predicate Below(nodes: map<Id, Node>, rank: map<Id, nat>, start: Option<Id>, visited: set<Id>) {
    start.Some? && start.value in nodes && start.value in rank ==>
      forall v :: v in visited ==> v in rank && rank[start.value] < rank[v]
  }

  /** In a forest a walk never meets a node twice and never leaves the graph. */
  lemma {:induction false} WalkNeverCycles(
    nodes: map<Id, Node>, rank: map<Id, nat>,
    start: Option<Id>, ancestor: Option<Id>, owner: Option<Id>, visited: set<Id>)
    requires Ranked(nodes, rank) && Known(nodes, start) && Below(nodes, rank, start, visited)
    ensures var walk := WalkUp(nodes, start, ancestor, owner, visited); !walk.Cycle? && !walk.UnknownNode?
    decreases nodes.Keys - visited
  {
    if start != ancestor && start.Some? {
      WalkNeverCycles(nodes, rank, nodes[start.value].parent, ancestor, owner, visited + {start.value});
    }
  }

  lemma {:induction false} PathIsFound(
    nodes: map<Id, Node>, rank: map<Id, nat>, path: seq<Id>,
    start: Option<Id>, ancestor: Option<Id>, owner: Option<Id>, visited: set<Id>)
    requires Ranked(nodes, rank) && Known(nodes, start) && Below(nodes, rank, start, visited)
    requires IsPath(nodes, path, start, ancestor, owner)
    ensures WalkUp(nodes, start, ancestor, owner, visited) == Reached(path)
    decreases |path|
  {
    if path != [] {
      PathIsFound(nodes, rank, path[1..], nodes[path[0]].parent, ancestor, owner, visited + {path[0]});
      assert path == [path[0]] + path[1..];
    }
  }

  /** In a forest, looking for an ancestor succeeds exactly when there is a path to it. */
  lemma AncestryIsLink(nodes: map<Id, Node>, start: Option<Id>, ancestor: Option<Id>, owner: Option<Id>)
    requires Forest(nodes) && Known(nodes, start)
    ensures Ancestry(nodes, start, ancestor, owner).Reached? <==> Linked(nodes, start, ancestor, owner)
    ensures !Ancestry(nodes, start, ancestor, owner).Cycle? && !Ancestry(nodes, start, ancestor, owner).UnknownNode?
  {
    var rank :| Ranked(nodes, rank);
    WalkFindsPath(nodes, start, ancestor, owner, {});
    WalkNeverCycles(nodes, rank, start, ancestor, owner, {});
    if Linked(nodes, start, ancestor, owner) {
      var path :| IsPath(nodes, path, start, ancestor, owner);
      PathIsFound(nodes, rank, path, start, ancestor, owner, {});
    }
  }

  lemma LinkStep(nodes: map<Id, Node>, n: Id, ancestor: Option<Id>, owner: Option<Id>)
    requires n in nodes && (owner.Some? ==> nodes[n].operation == owner)
    requires Linked(nodes, nodes[n].parent, ancestor, owner)
    ensures Linked(nodes, Some(n), ancestor, owner)
  {
    if Some(n) == ancestor {
      assert IsPath(nodes, [], Some(n), ancestor, owner);
    } else {
      var path :| IsPath(nodes, path, nodes[n].parent, ancestor, owner);
      assert ([n] + path)[1..] == path;
      assert IsPath(nodes, [n] + path, Some(n), ancestor, owner);
    }
  }

  lemma {:induction false} LinkThrough(
    nodes: map<Id, Node>, path: seq<Id>, start: Option<Id>, middle: Option<Id>, ancestor: Option<Id>)
    requires IsPath(nodes, path, start, middle, None) && Linked(nodes, middle, ancestor, None)
    ensures Linked(nodes, start, ancestor, None)
  {
    if path != [] {
      LinkThrough(nodes, path[1..], nodes[path[0]].parent, middle, ancestor);
      LinkStep(nodes, path[0], ancestor, None);
    }
  }

  lemma LinkIsTransitive(nodes: map<Id, Node>, start: Option<Id>, middle: Option<Id>, ancestor: Option<Id>)
    requires Linked(nodes, start, middle, None) && Linked(nodes, middle, ancestor, None)
    ensures Linked(nodes, start, ancestor, None)
  {
    var path :| IsPath(nodes, path, start, middle, None);
    LinkThrough(nodes, path, start, middle, ancestor);
  }

  /** Descending from each retained node to the next orders all of them. */
  lemma {:induction false} ChainIsOrdered(nodes: map<Id, Node>, ids: seq<Id>, i: nat, j: nat)
    requires i <= j < |ids|
    requires forall k :: 0 < k < |ids| ==> Linked(nodes, Some(ids[k]), Some(ids[k - 1]), None)
    ensures Linked(nodes, Some(ids[j]), Some(ids[i]), None)
    decreases j - i
  {
    if i == j {
      assert IsPath(nodes, [], Some(ids[j]), Some(ids[i]), None);
    } else {
      ChainIsOrdered(nodes, ids, i, j - 1);
      LinkIsTransitive(nodes, Some(ids[j]), Some(ids[j - 1]), Some(ids[i]));
    }
  }
}
