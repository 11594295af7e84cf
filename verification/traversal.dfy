/**
 The walk of the syntax tree as a trace: the (owner line, begin line) visits of
 the leaves it records, depth-first and in child order. The owner map of a
 file is this trace recorded into an empty map.
 */
module Traversal {
  import opened SyntaxTree
  import opened Resolver
  import opened OwnerMap

  /**
   The walk reads the parent of every leaf it records; a leaf with no parent
   can only be the root, and only a pruned root leaf is safe.
   */
  predicate ParentKnown(node: Node, ancestors: seq<Node>)
  {
    ancestors != [] || IsPruned(node.kind) || node.children != []
  }

  /** Visits made while walking `node`, whose ancestors are `ancestors` (nearest first). */
  function Visits(node: Node, ancestors: seq<Node>): seq<Visit>
    requires ParentKnown(node, ancestors)
    decreases node, 1, 0
  {
    if IsPruned(node.kind) then []
    else if node.children == [] then [(OwnerLine(node, ancestors), node.begin)]
    else ChildVisits(node, |node.children|, ancestors)
  }

  /** Visits made while walking the first `k` children of `node`, in order. */
  function ChildVisits(node: Node, k: nat, ancestors: seq<Node>): seq<Visit>
    requires k <= |node.children|
    decreases node, 0, k
  {
    if k == 0 then []
    else ChildVisits(node, k - 1, ancestors) + Visits(node.children[k - 1], [node] + ancestors)
  }

  /** The owner map the walk builds for a whole file, starting from an empty map. */
  function Aggregate(root: Node): Lines
    requires ParentKnown(root, [])
  {
    RecordAll(map[], Visits(root, []))
  }

  /**
   Leaves the walk reaches, each with its ancestors (nearest first),
   depth-first in child order, skipping pruned subtrees.
   */
  function ReachedLeaves(node: Node, ancestors: seq<Node>): seq<(Node, seq<Node>)>
    decreases node, 1, 0
  {
    if IsPruned(node.kind) then []
    else if node.children == [] then [(node, ancestors)]
    else ChildLeaves(node, |node.children|, ancestors)
  }

  /** Leaves reached through the first `k` children of `node`, in order. */
  function ChildLeaves(node: Node, k: nat, ancestors: seq<Node>): seq<(Node, seq<Node>)>
    requires k <= |node.children|
    decreases node, 0, k
  {
    if k == 0 then [] else ChildLeaves(node, k - 1, ancestors) + ReachedLeaves(node.children[k - 1], [node] + ancestors)
  }

  /**
   `visit` is what recording `reached` writes: the reached node is a
   non-pruned leaf with a parent, and the visit is its owner line, resolved
   from its own ancestors, with its begin line as the member.
   */
  ghost predicate VisitOfLeaf(visit: Visit, reached: (Node, seq<Node>))
  {
    var (leaf, path) := reached;
    && leaf.children == []
    && !IsPruned(leaf.kind)
    && path != []
    && visit == (OwnerLine(leaf, path), leaf.begin)
  }

  /**
   Only reached leaves are recorded, once each and in walk order; each visit
   is the leaf's owner line, resolved from its own ancestor path, with the
   leaf's begin line as the member. Internal nodes are never recorded.
   */
  lemma {:induction false} VisitsFollowReachedLeaves(node: Node, ancestors: seq<Node>)
    requires ParentKnown(node, ancestors)
    ensures |Visits(node, ancestors)| == |ReachedLeaves(node, ancestors)|
    ensures forall i :: 0 <= i < |ReachedLeaves(node, ancestors)| ==>
              VisitOfLeaf(Visits(node, ancestors)[i], ReachedLeaves(node, ancestors)[i])
    decreases node, 1, 0
  {
    if !IsPruned(node.kind) && node.children != [] {
      ChildVisitsFollowChildLeaves(node, |node.children|, ancestors);
    }
  }

  lemma {:induction false} ChildVisitsFollowChildLeaves(node: Node, k: nat, ancestors: seq<Node>)
    requires k <= |node.children|
    ensures |ChildVisits(node, k, ancestors)| == |ChildLeaves(node, k, ancestors)|
    ensures forall i :: 0 <= i < |ChildLeaves(node, k, ancestors)| ==>
              VisitOfLeaf(ChildVisits(node, k, ancestors)[i], ChildLeaves(node, k, ancestors)[i])
    decreases node, 0, k
  {
    if k > 0 {
      ChildVisitsFollowChildLeaves(node, k - 1, ancestors);
      VisitsFollowReachedLeaves(node.children[k - 1], [node] + ancestors);
    }
  }

  /** A node whose children are all pruned records nothing through them. */
  lemma {:induction false} PrunedChildrenVisitNothing(node: Node, k: nat, ancestors: seq<Node>)
    requires k <= |node.children|
    requires forall i :: 0 <= i < |node.children| ==> IsPruned(node.children[i].kind)
    ensures ChildVisits(node, k, ancestors) == []
    decreases k
  {
    if k > 0 {
      PrunedChildrenVisitNothing(node, k - 1, ancestors);
    }
  }

  /** A comment or enum-constant subtree leaves any map unchanged. */
  lemma PrunedSubtreeRecordsNothing(m: Lines, node: Node, ancestors: seq<Node>)
    requires IsPruned(node.kind)
    ensures RecordAll(m, Visits(node, ancestors)) == m
  {
  }

  /** A file whose top-level nodes are all comments gives an empty map. */
  lemma CommentOnlyFileGivesEmptyMap(root: Node)
    requires root.children != []
    requires forall i :: 0 <= i < |root.children| ==> root.children[i].kind == Comment
    ensures Aggregate(root) == map[]
  {
    if !IsPruned(root.kind) {
      PrunedChildrenVisitNothing(root, |root.children|, []);
    }
  }

  /**
   The file's map, stated without order: its keys are exactly the owner lines
   of the visits, each key's set is the key with every member recorded under
   it, and so every key belongs to its own set.
   */
  lemma AggregateIsGrouped(root: Node)
    requires ParentKnown(root, [])
    ensures Aggregate(root) == Merged(map[], Visits(root, []))
    ensures SelfOwned(Aggregate(root))
  {
    RecordAllIsMerged(map[], Visits(root, []));
  }

  /** Walking the same tree again over its own result changes nothing. */
  lemma WalkingTwiceIsWalkingOnce(root: Node)
    requires ParentKnown(root, [])
    ensures RecordAll(Aggregate(root), Visits(root, [])) == Aggregate(root)
  {
    RecordAllTwiceIsOnce(map[], Visits(root, []));
  }
}
