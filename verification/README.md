# locs-to-stms: statement-line aggregation

The `locstostms` command reads Java source files and works out which physical
lines make up one logical statement or declaration. It walks a file's syntax
tree. For every leaf it finds the line of the statement or declaration that
owns the leaf, and it records the leaf's begin line under that owner line. The
result is a map from owner line to a set of member lines. For each class it
writes one `owner:member` line per member other than the owner itself.

This project models that walk and proves what it computes:

- `syntax_tree.dfy` (module `SyntaxTree`): the tree as a datatype
  `Node(kind, begin, end, children)`. The parser's class-name tests become a
  closed enum `Kind`: `Comment`, `EnumConstant`, `Statement`,
  `VariableDeclarator`, `Declaration`, `Other`. The parent back-link is replaced
  by the path of ancestors, nearest first, passed down the walk.
- `resolver.dfy` (module `Resolver`): owner-line resolution. `OwnerLine` is the
  specification. `ResolveOwnerLine` is the upward search as a loop, proved
  equal to it.
- `owner_map.dfy` (module `OwnerMap`): the map and recording one member
  (`WithMember`). `RecordAll` records a whole trace of visits. `Merged` gives
  the same result without reference to order. It also holds the emitted-pair
  predicate `Emits`.
- `traversal.dfy` (module `Traversal`): the walk as a trace of
  `(owner line, begin line)` visits, depth-first and in child order (`Visits`).
  The file's map is `Aggregate(root)`, which is that trace recorded into an
  empty map.
- `locs_to_stms.dfy` (module `LocsToStmsCommand`): the command object. Its
  field `javaStatements` is updated in place by `Record` and `Explore`.
  `ProcessFile` clears the map, walks a tree and emits the pairs. `Execute`
  loops over the classes and source directories.
- `examples_trees.dfy` (module `ExampleTrees`): hand-built trees with the maps
  that the unit tests expect.

Three facts about the code shape the model:

- Exclusion is tested on every node before the leaf test
  (`LocsToStms.java:180-186`), so a whole comment or enum-constant subtree is
  skipped, not only comment or enum-constant leaves.
- The ancestor search's test ("a `body` class whose name ends in
  `Declaration`", `LocsToStms.java:205-206`) also matches
  `EnumConstantDeclaration`, so `IsOwnerKind` includes `EnumConstant`. The walk
  never enters an enum constant, so such a node never appears on a recorded
  leaf's path.
- A leaf's parent is read without a null check (`LocsToStms.java:189`, `195`),
  so a root with no children that is not pruned would fail. The walk therefore
  requires `ParentKnown(node, ancestors)`: the path is non-empty, or the node is
  pruned or has children. A run requires this only of the files it opens.

## Model

| member | source | states |
|---|---|---|
| `Resolver.FirstOwnerLineIsFirstMatch` | src/main/java/com/gzoltar/locstostms/commands/LocsToStms.java:196-212 | the upward search finds a line exactly when some ancestor is a statement, variable declarator or body declaration; the line is then the begin line of the first such ancestor counting from the parent |
| `Resolver.SingleLineStatementOwnsItself` | src/main/java/com/gzoltar/locstostms/commands/LocsToStms.java:191-194 | a statement leaf whose begin line equals its end line owns its own begin line |
| `Resolver.OwnerLineOfOtherLeaf` | src/main/java/com/gzoltar/locstostms/commands/LocsToStms.java:189-212 | for any other leaf: a multi-line parent gives the parent's begin line; a one-line parent gives the begin line of the first owner-kind ancestor, or the parent's begin line when there is none |
| `Resolver.ResolveOwnerLine` | src/main/java/com/gzoltar/locstostms/commands/LocsToStms.java:189-213 | the resolver loop (default, own line, or upward search with break) returns exactly `OwnerLine` |
| `OwnerMap.WithMemberChangesOnlyOwner` | src/main/java/com/gzoltar/locstostms/commands/LocsToStms.java:215-225 | recording one leaf adds its owner as a key and changes no other entry; the owner's set becomes its old set, or `{owner}` if new, plus the member |
| `OwnerMap.WithPresentMemberIsNoOp` | src/main/java/com/gzoltar/locstostms/commands/LocsToStms.java:224-225 | recording a member that is already in its owner's set leaves the map unchanged |
| `OwnerMap.WithMemberKeepsSelfOwned` | src/main/java/com/gzoltar/locstostms/commands/LocsToStms.java:217-222 | recording keeps every key inside its own set, so no set is empty |
| `OwnerMap.RecordAllIsMerged` | src/main/java/com/gzoltar/locstostms/commands/LocsToStms.java:215-225 | recording a trace of visits gives the keys of the old map plus every visited owner; each key's set is its old set (or itself) with every member recorded for it |
| `OwnerMap.RecordAllKeepsSelfOwned` | src/main/java/com/gzoltar/locstostms/commands/LocsToStms.java:217-222 | any number of recordings keeps every key inside its own set |
| `OwnerMap.RecordAllOrderFree` | src/main/java/com/gzoltar/locstostms/commands/LocsToStms.java:215-225 | two traces with the same visits, in any order and with any repetition, give the same map |
| `OwnerMap.RecordAllTwiceIsOnce` | src/main/java/com/gzoltar/locstostms/commands/LocsToStms.java:215-225 | recording the same trace a second time changes nothing |
| `OwnerMap.EmittedPairsDetermineMap` | src/main/java/com/gzoltar/locstostms/commands/LocsToStms.java:100-105 | given the key set, the non-self pairs determine the map: two self-owned maps with the same keys and the same emitted pairs are equal; an owner whose set is only itself does not appear in the output |
| `Traversal.VisitsFollowReachedLeaves` | src/main/java/com/gzoltar/locstostms/commands/LocsToStms.java:178-230 | the walk records only leaves reached through non-pruned ancestors, one visit per leaf, in depth-first child order; the i-th visit is the i-th leaf's owner line, resolved from that leaf's own ancestor path, with the leaf's begin line; internal nodes are never recorded |
| `Traversal.PrunedChildrenVisitNothing` | src/main/java/com/gzoltar/locstostms/commands/LocsToStms.java:180-186 | children that are all comments or enum constants contribute no visit, however deep their subtrees |
| `Traversal.PrunedSubtreeRecordsNothing` | src/main/java/com/gzoltar/locstostms/commands/LocsToStms.java:180-186 | walking a comment or enum-constant node leaves the map unchanged, with nothing from its descendants |
| `Traversal.CommentOnlyFileGivesEmptyMap` | src/main/java/com/gzoltar/locstostms/commands/LocsToStms.java:180-182 | a file whose top-level nodes are all comments gives an empty map |
| `Traversal.AggregateIsGrouped` | src/main/java/com/gzoltar/locstostms/commands/LocsToStms.java:215-229 | a file's map has exactly the owner lines of its visits as keys; each key's set is the key plus the members recorded for it, so every key is in its own set |
| `Traversal.WalkingTwiceIsWalkingOnce` | src/main/java/com/gzoltar/locstostms/commands/LocsToStms.java:178-230 | walking the same tree again over its own result, without clearing, changes nothing |
| `LocsToStmsCommand.FirstSrcDirWins` | src/main/java/com/gzoltar/locstostms/commands/LocsToStms.java:88-112 | the directory used for a class is the earliest one in the list that holds its file; none is used only when no directory holds it |
| `LocsToStmsCommand.LocsToStms.constructor` | src/main/java/com/gzoltar/locstostms/commands/LocsToStms.java:58 | a new command starts with an empty map |
| `LocsToStmsCommand.LocsToStms.Record` | src/main/java/com/gzoltar/locstostms/commands/LocsToStms.java:215-225 | the map field becomes `WithMember` of its old value and stays self-owned |
| `LocsToStmsCommand.LocsToStms.Explore` | src/main/java/com/gzoltar/locstostms/commands/LocsToStms.java:178-231 | the recursive walk leaves the map field equal to its old value with the node's visits recorded in walk order, and keeps it self-owned |
| `LocsToStmsCommand.LocsToStms.EmitPairs` | src/main/java/com/gzoltar/locstostms/commands/LocsToStms.java:100-110 | the nested loops write a pair exactly when it is an owner with one of its members other than itself, and never write the same pair twice |
| `LocsToStmsCommand.LocsToStms.ProcessFile` | src/main/java/com/gzoltar/locstostms/commands/LocsToStms.java:97-110 | after clearing and walking, the map is the file's own map whatever it held before, and the pairs are exactly that map's non-self pairs, each once |
| `LocsToStmsCommand.LocsToStms.Execute` | src/main/java/com/gzoltar/locstostms/commands/LocsToStms.java:80-118 | the output is one block per requested class, in request order, so a class listed twice is written twice; each block holds exactly the non-self pairs of the file in the first directory holding that class, each once, and is empty when no directory holds it; only the files the run opens need be walkable |
| `ExampleTrees.ClassDefinitionMap` | src/test/java/com/gzoltar/locstostms/commands/TestParser.java:39-47 | a class header on line 1 with its only member on line 2 gives `{1 -> {1, 2}}` |
| `ExampleTrees.FieldsMap` | src/test/java/com/gzoltar/locstostms/commands/TestParser.java:50-69 | fields on lines 2-5, 8 and 10-11 give `{2 -> {2, 3, 4, 5}, 8 -> {8}, 10 -> {10, 11}}`, including a one-line sub-expression resolved through the ancestor search |
| `ExampleTrees.CommentsMap` | src/test/java/com/gzoltar/locstostms/commands/TestParser.java:117-120 | a file of comments only gives an empty map |

## Left out

- Parsing (`LocsToStms.java:162-176`): JavaParser and the file input stream are a foreign library and I/O. The model takes the parsed tree as input. A parse error, which aborts the whole run, is not modelled.
- Class-name reflection: the canonical-name prefix tests are replaced by the `Kind` enum. String prefixes are not modelled.
- File-system work in `execute`: building the path from the source directory and the dotted class name, `exists()`, `createNewFile`, the file writers and the progress messages are left out. A file is a key `(srcDir, className)` of the `SourceFiles` map, and a present key stands for an existing file.
- Output formatting (`LocsToStms.java:107-108`): a written line is an `OutputLine(class, owner, member)` value. Replacing dots by slashes and adding `.java#` are not modelled.
- `LocsToStmsCommand.LocsToStms.Execute`: the order of lines inside one class's block is left open, as for `EmitPairs`. The value of the map field after the run is not stated; it keeps only the self-owned invariant.
- `LocsToStmsCommand.LocsToStms.EmitPairs`: the order of `HashMap` and `HashSet` iteration is unspecified. The model picks keys and members in an arbitrary order, and the pairs are specified as a set without duplicates.
- In-place mutation of the `HashSet` taken from the map (`LocsToStms.java:218`, `224`): the model's sets are values. Aliasing with a set obtained through `getJavaStatements` is not captured.
- `getJavaStatements`, `getSrcDirs`, `getClasses`, `getOutputFile`, `name` and `description` are plain accessors and constant strings. The model reads the `javaStatements` field directly.
- Line numbers are unbounded integers. The core does no arithmetic on them, so 32-bit `Integer` width plays no part.
- `Main.java`, `CommandParser.java`, `Commands.java` and `Version.java` are not part of this model: they cover command-line parsing, the command registry and reading the JAR manifest.
- The example trees are built by hand so that they match the test assertions. The test input files are not part of this model, so the trees are not claimed to be JavaParser's exact output for them.
