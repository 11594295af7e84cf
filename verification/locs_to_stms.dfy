/**
 The `locstostms` command: a class holding the owner map that the tree walk
 fills in place, the per-file reset and pair emission, and the loop over the
 requested classes and source directories.
 */
module LocsToStmsCommand {
  import opened SyntaxTree
  import opened Resolver
  import opened OwnerMap
  import opened Traversal

  /** One output line: the class, then an owner line and one of its member lines. */
  datatype OutputLine = OutputLine(clazz: string, owner: int, member: int)

  /**
   Parsed source files by (source directory, dotted class name); a key that is
   present stands for a file that exists there.
   */
  type SourceFiles = map<(string, string), Node>

  /** The first directory of `srcDirs` that holds a file for `clazz`. */
  function FirstSrcDir(clazz: string, srcDirs: seq<string>, files: SourceFiles): (dir: Option<string>)
    ensures dir.Some? ==> dir.value in srcDirs && (dir.value, clazz) in files
  {
    if srcDirs == [] then None
    else if (srcDirs[0], clazz) in files then Some(srcDirs[0])
    else FirstSrcDir(clazz, srcDirs[1..], files)
  }

  /** The directory chosen is the earliest one holding the file; there is none only when no directory holds it. */
  lemma {:induction false} FirstSrcDirWins(clazz: string, srcDirs: seq<string>, files: SourceFiles)
    ensures FirstSrcDir(clazz, srcDirs, files).None? <==>
              forall j :: 0 <= j < |srcDirs| ==> (srcDirs[j], clazz) !in files
    ensures forall i :: 0 <= i < |srcDirs| && (srcDirs[i], clazz) in files &&
                        (forall j :: 0 <= j < i ==> (srcDirs[j], clazz) !in files) ==>
                        FirstSrcDir(clazz, srcDirs, files) == Some(srcDirs[i])
  {
    if srcDirs != [] && (srcDirs[0], clazz) !in files {
      var rest := srcDirs[1..];
      FirstSrcDirWins(clazz, rest, files);
      forall i | 0 <= i < |srcDirs| && (srcDirs[i], clazz) in files &&
                 (forall j :: 0 <= j < i ==> (srcDirs[j], clazz) !in files)
        ensures FirstSrcDir(clazz, srcDirs, files) == Some(srcDirs[i])
      {
        assert rest[i - 1] == srcDirs[i];
        assert forall j :: 0 <= j < i - 1 ==> rest[j] == srcDirs[j + 1];
      }
      if FirstSrcDir(clazz, srcDirs, files).Some? {
        var k :| 0 <= k < |rest| && (rest[k], clazz) in files;
        assert srcDirs[k + 1] == rest[k];
      }
    }
  }

  /**
   The file used for `clazz`, if any, can be walked without reading a missing
   parent. Files the run never opens are not constrained.
   */
  predicate UsedFileWalkable(clazz: string, srcDirs: seq<string>, files: SourceFiles)
  {
    match FirstSrcDir(clazz, srcDirs, files)
    case None => true
    case Some(dir) => ParentKnown(files[(dir, clazz)], [])
  }

  /** The lines written for one class: the emitted pairs of the file in its first directory, if any. */
  ghost function ClassLines(clazz: string, srcDirs: seq<string>, files: SourceFiles): set<OutputLine>
    requires UsedFileWalkable(clazz, srcDirs, files)
  {
    match FirstSrcDir(clazz, srcDirs, files)
    case None => {}
    case Some(dir) =>
      var m := Aggregate(files[(dir, clazz)]);
      set k, x | k in m && x in m[k] && x != k :: OutputLine(clazz, k, x)
  }

  /** The blocks of a run written one after the other. */
  function Concat(blocks: seq<seq<OutputLine>>): seq<OutputLine>
  {
    if blocks == [] then [] else Concat(blocks[..|blocks| - 1]) + blocks[|blocks| - 1]
  }

  /** A block holds no line twice. */
  predicate Distinct(block: seq<OutputLine>)
  {
    forall i, j :: 0 <= i < j < |block| ==> block[i] != block[j]
  }

  /** The lines for `clazz` built from a list of pairs. */
  function LinesOf(clazz: string, pairs: seq<(int, int)>): (lines: seq<OutputLine>)
    ensures |lines| == |pairs|
    ensures forall i :: 0 <= i < |pairs| ==> lines[i] == OutputLine(clazz, pairs[i].0, pairs[i].1)
  {
    if pairs == [] then [] else LinesOf(clazz, pairs[..|pairs| - 1]) + [OutputLine(clazz, pairs[|pairs| - 1].0, pairs[|pairs| - 1].1)]
  }

  /** A non-empty set has an element, so a `:|` choice from it succeeds. */
  lemma NonEmptySetHasElement(s: set<int>)
    requires s != {}
    ensures exists x :: x in s
  {
    if forall x :: x !in s {
      assert false;
    }
  }

  class LocsToStms {
    /** Owner line to the set of lines of the statement that starts there. */
    var javaStatements: Lines

    ghost predicate Valid()
      reads this
    {
      SelfOwned(javaStatements)
    }

    constructor ()
      ensures Valid() && javaStatements == map[]
    {
      javaStatements := map[];
    }

    /** Records `member` under `owner`, seeding a new owner with its own line. */
    method Record(owner: int, member: int)
      requires Valid()
      modifies this
      ensures Valid()
      ensures javaStatements == WithMember(old(javaStatements), owner, member)
    {
      var lines: set<int>;
      if owner in javaStatements {
        lines := javaStatements[owner];
      } else {
        lines := {owner};
      }
      lines := lines + {member};
      javaStatements := javaStatements[owner := lines];
    }

    /**
     Walks `node`, whose ancestors are `ancestors` (nearest first): skips
     comment and enum-constant subtrees, records each leaf under its owner line,
     and walks the children of every other node in order.
     */
    method Explore(node: Node, ancestors: seq<Node>)
      requires Valid()
      requires ParentKnown(node, ancestors)
      modifies this
      ensures Valid()
      ensures javaStatements == RecordAll(old(javaStatements), Visits(node, ancestors))
      decreases node
    {
      if IsPruned(node.kind) {
        return;
      }
      if node.children == [] {
        var line := ResolveOwnerLine(node, ancestors);
        Record(line, node.begin);
      } else {
        var path := [node] + ancestors;
        for i := 0 to |node.children|
          invariant Valid()
          invariant javaStatements == RecordAll(old(javaStatements), ChildVisits(node, i, ancestors))
        {
          Explore(node.children[i], path);
          RecordAllAppend(old(javaStatements), ChildVisits(node, i, ancestors), Visits(node.children[i], path));
        }
      }
    }

    /**
     The pairs written for the current map: every (owner, member) with a member
     other than the owner, each exactly once, in no promised order.
     */
    method EmitPairs() returns (pairs: seq<(int, int)>)
      ensures forall p :: p in pairs <==> Emits(javaStatements, p)
      ensures forall i, j :: 0 <= i < j < |pairs| ==> pairs[i] != pairs[j]
    {
      pairs := [];
      var owners := javaStatements.Keys;
      ghost var doneOwners: set<int> := {};
      while owners != {}
        invariant owners !! doneOwners && owners + doneOwners == javaStatements.Keys
        invariant forall p :: p in pairs <==> p.0 in doneOwners && Emits(javaStatements, p)
        invariant forall i, j :: 0 <= i < j < |pairs| ==> pairs[i] != pairs[j]
        decreases owners
      {
        NonEmptySetHasElement(owners);
        var owner :| owner in owners;
        var lines := javaStatements[owner];
        ghost var doneLines: set<int> := {};
        while lines != {}
          invariant lines !! doneLines && lines + doneLines == javaStatements[owner]
          invariant forall p :: p in pairs <==>
                      (p.0 in doneOwners && Emits(javaStatements, p)) ||
                      (p.0 == owner && p.1 in doneLines && p.1 != owner)
          invariant forall i, j :: 0 <= i < j < |pairs| ==> pairs[i] != pairs[j]
          decreases lines
        {
          NonEmptySetHasElement(lines);
          var line :| line in lines;
          if line != owner {
            pairs := pairs + [(owner, line)];
          }
          lines := lines - {line};
          doneLines := doneLines + {line};
        }
        owners := owners - {owner};
        doneOwners := doneOwners + {owner};
      }
    }

    /**
     One file of the run: clears the map, walks the file's tree and emits the
     pairs of the new map; nothing from an earlier file remains.
     */
    method ProcessFile(tree: Node) returns (pairs: seq<(int, int)>)
      requires Valid()
      requires ParentKnown(tree, [])
      modifies this
      ensures Valid()
      ensures javaStatements == Aggregate(tree)
      ensures forall p :: p in pairs <==> Emits(Aggregate(tree), p)
      ensures forall i, j :: 0 <= i < j < |pairs| ==> pairs[i] != pairs[j]
    {
      javaStatements := map[];
      Explore(tree, []);
      pairs := EmitPairs();
    }

    /**
     The run: for each class in turn, the first source directory that holds its
     file is used and the others are skipped; a class found nowhere writes
     nothing. The output is one block per requested class, in order, so a class
     listed twice is written twice.
     */
    method Execute(classes: seq<string>, srcDirs: seq<string>, files: SourceFiles)
      returns (out: seq<OutputLine>, ghost blocks: seq<seq<OutputLine>>)
      requires Valid()
      requires forall c :: 0 <= c < |classes| ==> UsedFileWalkable(classes[c], srcDirs, files)
      modifies this
      ensures Valid()
      ensures |blocks| == |classes| && out == Concat(blocks)
      ensures forall c :: 0 <= c < |classes| ==> Distinct(blocks[c])
      ensures forall c, l :: 0 <= c < |classes| ==> (l in blocks[c] <==> l in ClassLines(classes[c], srcDirs, files))
    {
      out, blocks := [], [];
      for c := 0 to |classes|
        invariant Valid()
        invariant |blocks| == c && out == Concat(blocks)
        invariant forall k :: 0 <= k < c ==> Distinct(blocks[k])
        invariant forall k, l :: 0 <= k < c ==> (l in blocks[k] <==> l in ClassLines(classes[k], srcDirs, files))
      {
        var clazz := classes[c];
        FirstSrcDirWins(clazz, srcDirs, files);
        var block: seq<OutputLine> := [];
        ghost var written := out;
        var d := 0;
        while d < |srcDirs|
          invariant 0 <= d <= |srcDirs|
          invariant Valid()
          invariant out == written && block == []
          invariant forall j :: 0 <= j < d ==> (srcDirs[j], clazz) !in files
        {
          if (srcDirs[d], clazz) !in files {
            d := d + 1;
            continue;
          }
          var pairs := ProcessFile(files[(srcDirs[d], clazz)]);
          block := LinesOf(clazz, pairs);
          out := out + block;
          forall l
            ensures l in block <==> l in ClassLines(clazz, srcDirs, files)
          {
            if l in block {
              var i :| 0 <= i < |pairs| && block[i] == l;
              assert Emits(Aggregate(files[(srcDirs[d], clazz)]), pairs[i]);
            }
            if l in ClassLines(clazz, srcDirs, files) {
              assert Emits(Aggregate(files[(srcDirs[d], clazz)]), (l.owner, l.member));
              var i :| 0 <= i < |pairs| && pairs[i] == (l.owner, l.member);
              assert block[i] == l;
            }
          }
          break;
        }
        assert (blocks + [block])[..c] == blocks;
        blocks := blocks + [block];
      }
    }
  }
}
