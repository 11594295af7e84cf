/**
 The syntax tree that the statement-line aggregation walks, and the node
 classifier. The parser's class hierarchy is replaced by a closed set of kinds;
 each kind stands for the class-name test that `explore` applies to a node.
 */
module SyntaxTree {

  /** Node categories, one per class-name test of the walk. */
  datatype Kind =
    | Comment             // any class of the parser's `comments` package
    | EnumConstant        // `EnumConstantDeclaration`
    | Statement           // any class of the parser's `stmt` package
    | VariableDeclarator  // `VariableDeclarator`
    | Declaration         // any other class of the `body` package whose name ends in "Declaration"
    | Other               // everything else (expressions, types, names, the compilation unit, ...)

  /**
   A parsed node: its kind, its first and last physical line, and its ordered
   children (none for a leaf). The parent link of the parser's tree is not
   stored; the walk carries the path of ancestors instead.
   */
  datatype Node = Node(kind: Kind, begin: int, end: int, children: seq<Node>)

  /** The walk returns at once on these kinds, so their whole subtree is skipped. */
  predicate IsPruned(k: Kind)
  {
    k == Comment || k == EnumConstant
  }

  /**
   Kinds at which the ancestor search stops: a statement, a variable
   declarator, or a `body` class whose name ends in "Declaration" (which
   includes `EnumConstantDeclaration`).
   */
  predicate IsOwnerKind(k: Kind)
  {
    k == Statement || k == VariableDeclarator || k == Declaration || k == EnumConstant
  }
}
