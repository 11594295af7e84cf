/**
 Owner-line resolution: the line of the statement or declaration that owns a
 leaf. The leaf's ancestors are given nearest first, so `ancestors[0]` is the
 parent.
 */
module Resolver {
  import opened SyntaxTree

  datatype Option<T> = None | Some(value: T)

  /** `i` is the index of the first owner-kind node of `ancestors`. */
  ghost predicate IsFirstOwnerAt(ancestors: seq<Node>, i: int)
  {
    && 0 <= i < |ancestors|
    && IsOwnerKind(ancestors[i].kind)
    && forall j :: 0 <= j < i ==> !IsOwnerKind(ancestors[j].kind)
  }

  /** Begin line of the nearest owner-kind ancestor, if there is one. */
  function FirstOwnerLine(ancestors: seq<Node>): Option<int>
  {
    if ancestors == [] then None
    else if IsOwnerKind(ancestors[0].kind) then Some(ancestors[0].begin)
    else FirstOwnerLine(ancestors[1..])
  }

  /**
   The owner line of `leaf`: the parent's begin line by default; the leaf's own
   line when it is a one-line statement; otherwise, when the parent fits on one
   line, the begin line of the nearest owner-kind ancestor, if any.
   */
  function OwnerLine(leaf: Node, ancestors: seq<Node>): int
    requires ancestors != []
  {
    var parent := ancestors[0];
    if leaf.kind == Statement && leaf.begin == leaf.end then leaf.begin
    else if parent.begin == parent.end then
      match FirstOwnerLine(ancestors)
      case Some(line) => line
      case None => parent.begin
    else parent.begin
  }

  /** The search finds a line exactly when some ancestor has an owner kind, and then it is the first one's. */
  lemma {:induction false} FirstOwnerLineIsFirstMatch(ancestors: seq<Node>)
    ensures FirstOwnerLine(ancestors).None? <==> forall i :: 0 <= i < |ancestors| ==> !IsOwnerKind(ancestors[i].kind)
    ensures forall i :: IsFirstOwnerAt(ancestors, i) ==> FirstOwnerLine(ancestors) == Some(ancestors[i].begin)
  {
    if ancestors != [] && !IsOwnerKind(ancestors[0].kind) {
      var rest := ancestors[1..];
      FirstOwnerLineIsFirstMatch(rest);
      forall i | IsFirstOwnerAt(ancestors, i)
        ensures FirstOwnerLine(ancestors) == Some(ancestors[i].begin)
      {
        assert IsFirstOwnerAt(rest, i - 1);
      }
      if FirstOwnerLine(ancestors).Some? {
        var k :| 0 <= k < |rest| && IsOwnerKind(rest[k].kind);
        assert ancestors[k + 1] == rest[k];
      }
    }
  }

  /** A statement leaf on one line owns itself, whatever its ancestors. */
  lemma SingleLineStatementOwnsItself(leaf: Node, ancestors: seq<Node>)
    requires ancestors != []
    requires leaf.kind == Statement && leaf.begin == leaf.end
    ensures OwnerLine(leaf, ancestors) == leaf.begin
  {
  }

  /**
   Any other leaf: a multi-line parent gives its begin line; a one-line parent
   gives the begin line of the first owner-kind ancestor, counting from the
   parent, or the parent's begin line when there is none.
   */
  lemma OwnerLineOfOtherLeaf(leaf: Node, ancestors: seq<Node>)
    requires ancestors != []
    requires !(leaf.kind == Statement && leaf.begin == leaf.end)
    ensures ancestors[0].begin != ancestors[0].end ==> OwnerLine(leaf, ancestors) == ancestors[0].begin
    ensures ancestors[0].begin == ancestors[0].end ==>
              forall i :: IsFirstOwnerAt(ancestors, i) ==> OwnerLine(leaf, ancestors) == ancestors[i].begin
    ensures ancestors[0].begin == ancestors[0].end && (forall i :: 0 <= i < |ancestors| ==> !IsOwnerKind(ancestors[i].kind)) ==>
              OwnerLine(leaf, ancestors) == ancestors[0].begin
  {
    FirstOwnerLineIsFirstMatch(ancestors);
  }

  /**
   The resolver as the walk runs it: start from the parent's begin line, then
   either take the leaf's own line or search upwards from the parent.
   */
  method ResolveOwnerLine(leaf: Node, ancestors: seq<Node>) returns (line: int)
    requires ancestors != []
    ensures line == OwnerLine(leaf, ancestors)
  {
    line := ancestors[0].begin;
    if leaf.kind == Statement && leaf.begin == leaf.end {
      line := leaf.begin;
    } else if ancestors[0].begin == ancestors[0].end {
      var i := 0;
      while i < |ancestors|
        invariant 0 <= i <= |ancestors|
        invariant line == ancestors[0].begin
        invariant FirstOwnerLine(ancestors[i..]) == FirstOwnerLine(ancestors)
      {
        var parent := ancestors[i];
        if IsOwnerKind(parent.kind) {
          line := parent.begin;
          break;
        }
        assert ancestors[i..][1..] == ancestors[i + 1..];
        i := i + 1;
      }
    }
  }
}
