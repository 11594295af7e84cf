/**
 Hand-built trees shaped like the unit-test inputs, with the owner maps the
 tests expect. Line numbers are those of the test assertions.
 */
module ExampleTrees {
  import opened SyntaxTree
  import opened Resolver
  import opened OwnerMap
  import opened Traversal

  function Leaf(kind: Kind, begin: int, end: int): Node
  {
    Node(kind, begin, end, [])
  }

  /** The body of a class whose header is on line 1 and whose only member starts on line 2. */
  function ClassDefinitionBody(): Node
  {
    Node(Declaration, 1, 3, [Leaf(Other, 1, 1), Leaf(Declaration, 2, 2)])
  }

  function ClassDefinitionTree(): Node
  {
    Node(Other, 1, 3, [ClassDefinitionBody()])
  }

  /** The call on lines 2-5 initialising field `a`; its first argument is a one-line binary expression. */
  function FieldACall(): Node
  {
    Node(Other, 2, 5, [
      Node(Other, 3, 3, [Leaf(Other, 3, 3), Leaf(Other, 3, 3)]),
      Leaf(Other, 4, 4),
      Leaf(Other, 5, 5)])
  }

  /** Field `a` on lines 2-5. */
  function FieldA(): Node
  {
    Node(Declaration, 2, 5, [Leaf(Other, 2, 2), Node(VariableDeclarator, 2, 5, [Leaf(Other, 2, 2), FieldACall()])])
  }

  /** Field `b` on line 8. */
  function FieldB(): Node
  {
    Node(Declaration, 8, 8, [Leaf(Other, 8, 8), Node(VariableDeclarator, 8, 8, [Leaf(Other, 8, 8)])])
  }

  /** Field `c` on lines 10-11. */
  function FieldC(): Node
  {
    Node(Declaration, 10, 11, [
      Leaf(Other, 10, 10),
      Node(VariableDeclarator, 10, 11, [Leaf(Other, 10, 10), Leaf(Other, 11, 11)])])
  }

  function FieldsClass(): Node
  {
    Node(Declaration, 1, 12, [FieldA(), FieldB(), FieldC()])
  }

  function FieldsTree(): Node
  {
    Node(Other, 1, 12, [FieldsClass()])
  }

  /** A file holding only a block comment and a line comment. */
  function CommentsTree(): Node
  {
    Node(Other, 1, 4, [Leaf(Comment, 1, 2), Leaf(Comment, 4, 4)])
  }

  /** Recording the visit at index `k` of a trace, as one step of a worked example. */
  lemma RecordStep(m: Lines, trace: seq<Visit>, k: nat, next: Lines)
    requires k < |trace|
    requires WithMember(m, trace[k].0, trace[k].1) == next
    ensures RecordAll(m, trace[k..]) == RecordAll(next, trace[k + 1..])
  {
    assert trace[k..][1..] == trace[k + 1..];
  }

  lemma ClassDefinitionMap()
    ensures Aggregate(ClassDefinitionTree()) == map[1 := {1, 2}]
  {
    var root, body := ClassDefinitionTree(), ClassDefinitionBody();
    assert Visits(body, [root]) == [(1, 1), (1, 2)] by {
      assert ChildVisits(body, 1, [root]) == [(1, 1)];
    }
    assert Visits(root, []) == [(1, 1), (1, 2)] by {
      assert ChildVisits(root, 1, []) == Visits(body, [root]);
    }
    var trace := Visits(root, []);
    assert trace[0] == (1, 1) && trace[1] == (1, 2);
    assert {1} + {1} == {1} && {1} + {2} == {1, 2};
    RecordStep(map[], trace, 0, map[1 := {1}]);
    RecordStep(map[1 := {1}], trace, 1, map[1 := {1, 2}]);
    assert trace[0..] == trace && trace[2..] == [];
  }

  lemma FieldAVisits(path: seq<Node>)
    requires path == [FieldsClass(), FieldsTree()]
    ensures Visits(FieldA(), path) == [(2, 2), (2, 2), (2, 3), (2, 3), (2, 4), (2, 5)]
  {
    var a := FieldA();
    var decl := a.children[1];
    var call := FieldACall();
    var declPath := [a] + path;
    var callPath := [decl] + declPath;
    var binPath := [call] + callPath;
    var binary := call.children[0];
    assert FirstOwnerLine(binPath) == Some(2) by {
      assert binPath[1..] == callPath;
    }
    assert Visits(binary, binPath) == [(2, 3), (2, 3)] by {
      assert ChildVisits(binary, 1, binPath) == [(2, 3)];
    }
    assert Visits(call, callPath) == [(2, 3), (2, 3), (2, 4), (2, 5)] by {
      assert ChildVisits(call, 1, callPath) == [(2, 3), (2, 3)];
      assert ChildVisits(call, 2, callPath) == [(2, 3), (2, 3), (2, 4)];
    }
    assert Visits(decl, declPath) == [(2, 2), (2, 3), (2, 3), (2, 4), (2, 5)] by {
      assert ChildVisits(decl, 1, declPath) == [(2, 2)];
    }
    assert ChildVisits(a, 1, path) == [(2, 2)];
  }

  lemma FieldBVisits(path: seq<Node>)
    requires path == [FieldsClass(), FieldsTree()]
    ensures Visits(FieldB(), path) == [(8, 8), (8, 8)]
  {
    var b := FieldB();
    assert Visits(b.children[1], [b] + path) == [(8, 8)] by {
      assert ChildVisits(b.children[1], 1, [b] + path) == [(8, 8)];
    }
    assert ChildVisits(b, 1, path) == [(8, 8)];
  }

  lemma FieldCVisits(path: seq<Node>)
    requires path == [FieldsClass(), FieldsTree()]
    ensures Visits(FieldC(), path) == [(10, 10), (10, 10), (10, 11)]
  {
    var c := FieldC();
    assert Visits(c.children[1], [c] + path) == [(10, 10), (10, 11)] by {
      assert ChildVisits(c.children[1], 1, [c] + path) == [(10, 10)];
    }
    assert ChildVisits(c, 1, path) == [(10, 10)];
  }

  lemma FieldsVisits()
    ensures Visits(FieldsTree(), []) ==
              [(2, 2), (2, 2), (2, 3), (2, 3), (2, 4), (2, 5)] + [(8, 8), (8, 8)] + [(10, 10), (10, 10), (10, 11)]
  {
    var root, cls := FieldsTree(), FieldsClass();
    var path := [cls, root];
    FieldAVisits(path);
    FieldBVisits(path);
    FieldCVisits(path);
    assert [root] + [] == [root];
    assert [cls] + [root] == path;
    assert ChildVisits(root, 1, []) == Visits(cls, [root]);
    assert ChildVisits(cls, 1, [root]) == Visits(FieldA(), path);
    assert ChildVisits(cls, 2, [root]) == Visits(FieldA(), path) + Visits(FieldB(), path);
  }

  lemma RecordFieldA(va: seq<Visit>)
    requires va == [(2, 2), (2, 2), (2, 3), (2, 3), (2, 4), (2, 5)]
    ensures RecordAll(map[], va) == map[2 := {2, 3, 4, 5}]
  {
    assert {2} + {2} == {2} && {2} + {3} == {2, 3} && {2, 3} + {3} == {2, 3};
    assert {2, 3} + {4} == {2, 3, 4} && {2, 3, 4} + {5} == {2, 3, 4, 5};
    RecordStep(map[], va, 0, map[2 := {2}]);
    RecordStep(map[2 := {2}], va, 1, map[2 := {2}]);
    RecordStep(map[2 := {2}], va, 2, map[2 := {2, 3}]);
    RecordStep(map[2 := {2, 3}], va, 3, map[2 := {2, 3}]);
    RecordStep(map[2 := {2, 3}], va, 4, map[2 := {2, 3, 4}]);
    RecordStep(map[2 := {2, 3, 4}], va, 5, map[2 := {2, 3, 4, 5}]);
    assert va[0..] == va && va[6..] == [];
  }

  lemma RecordFieldB(m: Lines, vb: seq<Visit>)
    requires vb == [(8, 8), (8, 8)]
    requires 8 !in m
    ensures RecordAll(m, vb) == m[8 := {8}]
  {
    assert {8} + {8} == {8};
    RecordStep(m, vb, 0, m[8 := {8}]);
    RecordStep(m[8 := {8}], vb, 1, m[8 := {8}]);
    assert vb[0..] == vb && vb[2..] == [];
  }

  lemma RecordFieldC(m: Lines, vc: seq<Visit>)
    requires vc == [(10, 10), (10, 10), (10, 11)]
    requires 10 !in m
    ensures RecordAll(m, vc) == m[10 := {10, 11}]
  {
    assert {10} + {10} == {10} && {10} + {11} == {10, 11};
    RecordStep(m, vc, 0, m[10 := {10}]);
    RecordStep(m[10 := {10}], vc, 1, m[10 := {10}]);
    RecordStep(m[10 := {10}], vc, 2, m[10 := {10, 11}]);
    assert vc[0..] == vc && vc[3..] == [];
  }

  lemma FieldsMap()
    ensures Aggregate(FieldsTree()) == map[2 := {2, 3, 4, 5}, 8 := {8}, 10 := {10, 11}]
  {
    var va, vb, vc := [(2, 2), (2, 2), (2, 3), (2, 3), (2, 4), (2, 5)], [(8, 8), (8, 8)], [(10, 10), (10, 10), (10, 11)];
    FieldsVisits();
    RecordAllAppend(map[], va + vb, vc);
    RecordAllAppend(map[], va, vb);
    RecordFieldA(va);
    RecordFieldB(map[2 := {2, 3, 4, 5}], vb);
    RecordFieldC(map[2 := {2, 3, 4, 5}, 8 := {8}], vc);
  }

  lemma CommentsMap()
    ensures Aggregate(CommentsTree()) == map[]
  {
    CommentOnlyFileGivesEmptyMap(CommentsTree());
  }
}
