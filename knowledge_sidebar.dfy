// The knowledge sidebar's file tree and its file helpers.
module KnowledgeSidebar {
  import opened Wrappers
  import opened Strings

  datatype ItemKind = FileKind | DirectoryKind | FolderKind | ImageKind

  /** A listed knowledge item: its description, type and metadata path and size. */
  datatype FileItem = FileItem(description: string, kind: Option<ItemKind>, metaPath: Option<string>,
                               size: Option<int>)

  datatype NodeKind = FileNode | FolderNode

  /** A tree node; its children are named by their paths (the keys of the path map). */
  datatype Node = Node(name: string, path: string, kind: NodeKind, children: Option<seq<string>>,
                       size: Option<int>)

  /** The item's path: the metadata path if non-empty, else the description without its first label. */
  function PathOf(f: FileItem): (r: string)
    ensures f.metaPath.Some? && f.metaPath.value != "" ==> r == f.metaPath.value
    ensures ((f.metaPath.None? || f.metaPath.value == "") && !Contains(f.description, "File: ")
             && !Contains(f.description, "Folder: ")) ==> r == f.description
  {
    if f.metaPath.Some? && f.metaPath.value != "" then f.metaPath.value
    else ReplaceFirst(ReplaceFirst(f.description, "File: ", ""), "Folder: ", "")
  }

  /** `split('/').filter(part => part.length > 0)`. */
  function Parts(path: string): (r: seq<string>)
    ensures forall i :: 0 <= i < |r| ==> r[i] != "" && '/' !in r[i]
  {
    NonEmpty(Split(path, '/'))
  }

  predicate IsDirItem(f: FileItem) {
    f.kind == Some(DirectoryKind) || f.kind == Some(FolderKind)
  }

  /** The path of the first `j` segments. */
  function Prefix(parts: seq<string>, j: nat): string
    requires j <= |parts|
  {
    Join(parts[..j], "/")
  }

  /** The item's path with empty segments dropped: the key of its own node. */
  function NormPath(f: FileItem): string {
    var parts := Parts(PathOf(f));
    Prefix(parts, |parts|)
  }

  function PrefixesUpTo(parts: seq<string>, j: nat): set<string>
    requires j <= |parts|
  {
    if j == 0 then {} else PrefixesUpTo(parts, j - 1) + {Prefix(parts, j)}
  }

  /** Every prefix path of every item. */
  function AllPrefixes(files: seq<FileItem>): set<string> {
    if |files| == 0 then {}
    else
      var parts := Parts(PathOf(files[|files| - 1]));
      AllPrefixes(files[..|files| - 1]) + PrefixesUpTo(parts, |parts|)
  }

  /** No item that is not a directory has a path that is a proper prefix of another item's path. */
  predicate NoFileIsProperPrefix(files: seq<FileItem>) {
    forall x, y, m :: (0 <= x < |files| && 0 <= y < |files| && !IsDirItem(files[x])
                       && 1 <= m < |Parts(PathOf(files[y]))|) ==> NormPath(files[x]) != Prefix(Parts(PathOf(files[y])), m)
  }

  lemma PrefixStep(parts: seq<string>, j: nat)
    requires j < |parts|
    requires forall i :: 0 <= i < |parts| ==> parts[i] != ""
    ensures j == 0 ==> Prefix(parts, j + 1) == parts[0]
    ensures j > 0 ==> Prefix(parts, j) != "" && Prefix(parts, j + 1) == Prefix(parts, j) + "/" + parts[j]
  {
    assert parts[..j + 1] == parts[..j] + [parts[j]];
    JoinAppend(parts[..j], parts[j], "/");
    if j > 0 {
      assert parts[..j][0] == parts[0];
    }
  }

  /** The node stored under `k` is well formed and its children are stored too. */
  ghost predicate NodeOk(k: string, n: Node, keys: set<string>) {
    n.path == k && n.name != "" && '/' !in n.name && (k == n.name || EndsWith(k, "/" + n.name))
    && (n.kind == FolderNode <==> n.children.Some?)
    && (n.children.Some? ==> forall c :: c in n.children.value ==> c in keys)
  }

  ghost predicate NodesOk(nodes: map<string, Node>) {
    forall k :: k in nodes ==> NodeOk(k, nodes[k], nodes.Keys)
  }

  /** Top-level nodes have one-segment paths and each child's path extends its parent's by its name. */
  ghost predicate Linked(nodes: map<string, Node>, roots: seq<string>) {
    (forall c :: c in roots ==> c in nodes && c == nodes[c].name)
    && forall k :: k in nodes && nodes[k].children.Some? ==>
         forall c :: c in nodes[k].children.value ==> c in nodes && c == k + "/" + nodes[c].name
  }

  /** Every one-segment path is on the top-level list. */
  ghost predicate RootsPlaced(nodes: map<string, Node>, roots: seq<string>) {
    forall k {:trigger k in roots} :: k in nodes && '/' !in k ==> k in roots
  }

  /** The path of `k` without its last segment `name` and the slash before it. */
  function ParentPath(k: string, name: string): string
    requires |name| < |k|
  {
    k[..|k| - |name| - 1]
  }

  /** Every node below the top level is on its parent's children list. */
  ghost predicate ChildrenPlaced(nodes: map<string, Node>) {
    forall k {:trigger ParentPath(k, nodes[k].name)} :: k in nodes && |nodes[k].name| < |k| ==>
      var p := ParentPath(k, nodes[k].name);
      p in nodes && nodes[p].children.Some? && k in nodes[p].children.value
  }

  /**
   * `buildFileTree`'s state: the path map, the top-level list, and for the
   * proof whether a segment was ever placed
   * under a stale level (after a file node, which has no children list).
   */
  class FileTree {
    var nodes: map<string, Node>
    var roots: seq<string>
    ghost var strayed: bool

    ghost predicate Valid()
      reads this
    {
      NodesOk(nodes)
      && (forall c :: c in roots ==> c in nodes)
      && RootsPlaced(nodes, roots)
      && (!strayed ==> Linked(nodes, roots) && ChildrenPlaced(nodes))
    }

    constructor()
      ensures Valid() && nodes == map[] && roots == [] && !strayed
    {
      nodes := map[];
      roots := [];
      strayed := false;
    }

    /** Stores a new node and pushes its path onto the current level's list. */
    method Attach(k: string, node: Node, level: Option<string>)
      requires Valid() && k !in nodes
      requires NodeOk(k, node, nodes.Keys + {k}) && (node.children.Some? ==> node.children.value == [])
      requires level.Some? ==> level.value in nodes && nodes[level.value].children.Some?
      requires '/' !in k ==> level.None?
      requires !strayed ==> (level.None? ==> k == node.name) && (level.Some? ==> k == level.value + "/" + node.name)
      modifies this
      ensures Valid() && strayed == old(strayed)
      ensures nodes.Keys == old(nodes.Keys) + {k} && nodes[k] == node
      ensures forall c :: c in old(nodes) ==> (nodes[c].kind == old(nodes[c].kind) && nodes[c].name == old(nodes[c].name)
                                              && nodes[c].children.Some? == old(nodes[c].children).Some?)
      ensures level.None? ==> roots == old(roots) + [k] && forall c :: c in old(nodes) ==> nodes[c] == old(nodes[c])
      ensures level.Some? ==> (roots == old(roots)
                && nodes[level.value].children == Some(old(nodes[level.value]).children.value + [k])
                && forall c :: c in old(nodes) && c != level.value ==> nodes[c] == old(nodes[c]))
    {
      ghost var n0 := nodes;
      nodes := nodes[k := node];
      if level.None? {
        roots := roots + [k];
      } else {
        var p := nodes[level.value];
        nodes := nodes[level.value := p.(children := Some(p.children.value + [k]))];
      }
      AttachKeepsNodes(n0, k, node, level, nodes);
      AttachKeepsRoots(n0, old(roots), k, level, nodes, roots);
      if !strayed {
        AttachKeepsLinks(n0, old(roots), k, node, level, nodes, roots);
        AttachKeepsChildren(n0, k, node, level, nodes);
      }
    }

    /** One path segment of an item, creating its node under `level` when the path is new. */
    method Segment(isDir: bool, size: Option<int>, parts: seq<string>, j: nat, cur: string, level: Option<string>)
      returns (cur': string, level': Option<string>)
      requires Valid() && j < |parts| && forall i :: 0 <= i < |parts| ==> parts[i] != "" && '/' !in parts[i]
      requires Cursor(parts, j, cur, level)
      modifies this
      ensures Valid() && Cursor(parts, j + 1, cur', level')
      ensures nodes.Keys == old(nodes.Keys) + {cur'}
      ensures Kept(old(nodes), nodes)
      ensures cur' !in old(nodes) ==> nodes[cur'].kind == (if j == |parts| - 1 && !isDir then FileNode else FolderNode)
      ensures strayed ==> old(strayed) || (j < |parts| - 1 && cur' in old(nodes) && old(nodes[cur'].kind) == FileNode)
    {
      PrefixStep(parts, j);
      var part := parts[j];
      cur' := if cur != "" then cur + "/" + part else part;
      level' := level;
      if cur' !in nodes {
        var isLast := j == |parts| - 1;
        var node := Node(part, cur', if isLast && !isDir then FileNode else FolderNode,
                         if isLast && isDir then Some([]) else None, size);
        // a childless folder gets its list at once (the source repairs it right after the push)
        if node.kind == FolderNode && node.children.None? {
          node := node.(children := Some([]));
        }
        assert cur' == part || EndsWith(cur', "/" + part) by {
          if j > 0 {
            assert cur'[|cur'| - |"/" + part|..] == "/" + part;
          }
        }
        assert j > 0 ==> cur'[|cur|] == '/';
        Attach(cur', node, level);
      }
      // an existing folder always has its list already
      if nodes[cur'].children.Some? {
        level' := Some(cur');
      } else if j < |parts| - 1 {
        // a node without list is a file node, and a new one would be a folder here
        assert NodeOk(cur', nodes[cur'], nodes.Keys);
        strayed := true;
      }
    }

    /** The walk's position: `currentPath` after `j` segments and the `currentLevel` it descends into. */
    ghost predicate Cursor(parts: seq<string>, j: nat, cur: string, level: Option<string>)
      requires j <= |parts|
      reads this
    {
      cur == Prefix(parts, j) && (j > 0 ==> cur in nodes)
      && (level.Some? ==> level.value in nodes && nodes[level.value].children.Some?)
      && (j == 0 ==> level.None?)
      && (!strayed ==> 0 < j < |parts| ==> level == Some(cur))
    }

    /**
     * One item (`forEach` body): its path's segments, then the segment walk.
     * `guarded` says no file node already sits on a proper prefix of the path.
     */
    method Insert(file: FileItem, ghost guarded: bool)
      requires Valid()
      requires Guarded(nodes, Parts(PathOf(file)), guarded)
      modifies this
      ensures Valid()
      ensures var parts := Parts(PathOf(file)); nodes.Keys == old(nodes.Keys) + PrefixesUpTo(parts, |parts|)
      ensures forall k :: k in old(nodes) ==> nodes[k].kind == old(nodes[k].kind) && nodes[k].name == old(nodes[k].name)
      ensures forall k :: k in nodes && nodes[k].kind == FileNode ==>
                (k in old(nodes) && old(nodes[k].kind) == FileNode) || (k == NormPath(file) && !IsDirItem(file))
      ensures guarded && !old(strayed) ==> !strayed
      ensures !IsDirItem(file) && NormPath(file) != "" && NormPath(file) !in old(nodes) ==>
                NormPath(file) in nodes && nodes[NormPath(file)].kind == FileNode
    {
      var parts := Parts(PathOf(file));
      assert |parts| == 0 ==> parts[..0] == [];
      InsertPath(parts, IsDirItem(file), file.size, guarded);
    }

    /** The segment walk over `parts`, `currentPath` and `currentLevel` as in the source. */
    method InsertPath(parts: seq<string>, isDir: bool, size: Option<int>, ghost guarded: bool)
      requires Valid() && forall i :: 0 <= i < |parts| ==> parts[i] != "" && '/' !in parts[i]
      requires Guarded(nodes, parts, guarded)
      modifies this
      ensures Valid()
      ensures WalkFacts(nodes, strayed, parts, isDir, |parts|, old(nodes), old(strayed), guarded)
    {
      var cur := "";
      var level: Option<string> := None;
      var j := 0;
      assert parts[..0] == [];
      assert PrefixesUpTo(parts, 0) == {};
      while j < |parts|
        invariant Valid() && 0 <= j <= |parts| && Cursor(parts, j, cur, level)
        invariant WalkFacts(nodes, strayed, parts, isDir, j, old(nodes), old(strayed), guarded)
      {
        cur, level := WalkSegment(isDir, size, parts, j, cur, level, old(nodes), old(strayed), guarded);
        j := j + 1;
      }
    }

    /** One turn of the segment walk, keeping the walk facts from the item's start `n0`. */
    method WalkSegment(isDir: bool, size: Option<int>, parts: seq<string>, j: nat, cur: string, level: Option<string>,
                       ghost n0: map<string, Node>, ghost s0: bool, ghost guarded: bool)
      returns (cur': string, level': Option<string>)
      requires Valid() && j < |parts| && forall i :: 0 <= i < |parts| ==> parts[i] != "" && '/' !in parts[i]
      requires Guarded(n0, parts, guarded) && Cursor(parts, j, cur, level)
      requires WalkFacts(nodes, strayed, parts, isDir, j, n0, s0, guarded)
      modifies this
      ensures Valid() && Cursor(parts, j + 1, cur', level')
      ensures WalkFacts(nodes, strayed, parts, isDir, j + 1, n0, s0, guarded)
    {
      ghost var before, strayedBefore := nodes, strayed;
      cur', level' := Segment(isDir, size, parts, j, cur, level);
      WalkStep(before, nodes, strayedBefore, strayed, parts, isDir, j, cur', n0, s0, guarded);
    }
  }

  /** No file node sits on a proper prefix of `parts`, when `guarded`. */
  ghost predicate Guarded(n0: map<string, Node>, parts: seq<string>, guarded: bool) {
    guarded ==> forall m :: 1 <= m < |parts| && Prefix(parts, m) in n0 ==> n0[Prefix(parts, m)].kind != FileNode
  }

  /** Every node already present keeps its kind and name. */
  ghost predicate Kept(n0: map<string, Node>, n1: map<string, Node>) {
    forall k :: k in n0 ==> k in n1 && n1[k].kind == n0[k].kind && n1[k].name == n0[k].name
  }

  /**
   * After `j` segments of `parts` starting from `n0`: the keys added are the
   * first `j` prefixes, old nodes keep kind and name, new nodes are folders
   * except a file node for the full path, and a guarded walk never strays.
   */
  ghost predicate WalkFacts(nodes: map<string, Node>, strayed: bool, parts: seq<string>, isDir: bool, j: nat,
                            n0: map<string, Node>, s0: bool, guarded: bool)
    requires j <= |parts|
  {
    nodes.Keys == n0.Keys + PrefixesUpTo(parts, j)
    && Kept(n0, nodes)
    && (forall k :: k in nodes && k !in n0 ==> nodes[k].kind == FolderNode || (j == |parts| && k == Prefix(parts, j) && !isDir))
    && (j == |parts| && 0 < j && !isDir && Prefix(parts, j) !in n0 ==> nodes[Prefix(parts, j)].kind == FileNode)
    && (guarded && !s0 ==> !strayed)
  }

  /** One segment keeps the walk facts, the step after `j` prefixes giving `j + 1`. */
  lemma WalkStep(before: map<string, Node>, after: map<string, Node>, strayedBefore: bool, strayedAfter: bool,
                 parts: seq<string>, isDir: bool, j: nat, cur': string,
                 n0: map<string, Node>, s0: bool, guarded: bool)
    requires j < |parts| && Guarded(n0, parts, guarded) && forall i :: 0 <= i < |parts| ==> parts[i] != ""
    requires WalkFacts(before, strayedBefore, parts, isDir, j, n0, s0, guarded)
    requires cur' == Prefix(parts, j + 1)
    requires after.Keys == before.Keys + {cur'} && Kept(before, after)
    requires cur' !in before ==> after[cur'].kind == (if j == |parts| - 1 && !isDir then FileNode else FolderNode)
    requires strayedAfter ==> strayedBefore || (j < |parts| - 1 && cur' in before && before[cur'].kind == FileNode)
    ensures WalkFacts(after, strayedAfter, parts, isDir, j + 1, n0, s0, guarded)
  {
    assert PrefixesUpTo(parts, j + 1) == PrefixesUpTo(parts, j) + {cur'};
    forall k | k in after && k !in n0
      ensures after[k].kind == FolderNode || (j + 1 == |parts| && k == cur' && !isDir)
    {
      if k != cur' || cur' in before {
        assert k in before;
      }
    }
    if j + 1 == |parts| {
      NotEarlierPrefix(parts, j);
    }
    if guarded && !s0 {
      assert cur' in before && cur' !in n0 ==> before[cur'].kind == FolderNode;
      assert j + 1 < |parts| && cur' in n0 ==> n0[cur'].kind != FileNode;
    }
  }

  lemma AttachKeepsNodes(n0: map<string, Node>, k: string, node: Node, level: Option<string>,
                         n2: map<string, Node>)
    requires NodesOk(n0) && k !in n0 && NodeOk(k, node, n0.Keys + {k})
    requires level.Some? ==> level.value in n0 && n0[level.value].children.Some?
    requires n2 == if level.None? then n0[k := node]
                   else n0[k := node][level.value := n0[level.value].(children := Some(n0[level.value].children.value + [k]))]
    ensures NodesOk(n2) && n2.Keys == n0.Keys + {k} && n2[k] == node
    ensures forall c :: c in n0 ==> (n2[c].kind == n0[c].kind && n2[c].name == n0[c].name
                                     && n2[c].children.Some? == n0[c].children.Some?)
    ensures forall c :: c in n0 && level != Some(c) ==> n2[c] == n0[c]
    ensures level.Some? ==> n2[level.value].children == Some(n0[level.value].children.value + [k])
  {
    assert n2.Keys == n0.Keys + {k};
    forall c | c in n2 ensures NodeOk(c, n2[c], n2.Keys) {
      if c != k {
        assert NodeOk(c, n0[c], n0.Keys);
      }
    }
  }

  lemma AttachKeepsLinks(n0: map<string, Node>, r0: seq<string>, k: string, node: Node, level: Option<string>,
                         n2: map<string, Node>, r2: seq<string>)
    requires Linked(n0, r0) && k !in n0 && (node.children.Some? ==> node.children.value == [])
    requires level.Some? ==> level.value in n0 && n0[level.value].children.Some?
    requires level.None? ==> k == node.name && r2 == r0 + [k]
    requires level.Some? ==> k == level.value + "/" + node.name && r2 == r0
    requires n2.Keys == n0.Keys + {k} && n2[k] == node
    requires forall c :: c in n0 ==> n2[c].name == n0[c].name
    requires forall c :: c in n0 && level != Some(c) ==> n2[c] == n0[c]
    requires level.Some? ==> n2[level.value].children == Some(n0[level.value].children.value + [k])
    ensures Linked(n2, r2)
  {
  }

  lemma AttachKeepsRoots(n0: map<string, Node>, r0: seq<string>, k: string, level: Option<string>,
                         n2: map<string, Node>, r2: seq<string>)
    requires RootsPlaced(n0, r0) && n2.Keys == n0.Keys + {k}
    requires '/' !in k ==> level.None?
    requires level.None? ==> r2 == r0 + [k]
    requires level.Some? ==> r2 == r0
    ensures RootsPlaced(n2, r2)
  {
  }

  lemma AttachKeepsChildren(n0: map<string, Node>, k: string, node: Node, level: Option<string>,
                            n2: map<string, Node>)
    requires ChildrenPlaced(n0) && k !in n0
    requires level.None? ==> k == node.name
    requires level.Some? ==> level.value in n0 && n0[level.value].children.Some? && k == level.value + "/" + node.name
    requires n2.Keys == n0.Keys + {k} && n2[k] == node
    requires forall c :: c in n0 ==> n2[c].name == n0[c].name
    requires forall c :: c in n0 && level != Some(c) ==> n2[c] == n0[c]
    requires level.Some? ==> n2[level.value].children == Some(n0[level.value].children.value + [k])
    ensures ChildrenPlaced(n2)
  {
    forall c | c in n2 && |n2[c].name| < |c|
      ensures ParentPath(c, n2[c].name) in n2 && n2[ParentPath(c, n2[c].name)].children.Some?
              && c in n2[ParentPath(c, n2[c].name)].children.value
    {
      if c == k {
        assert ParentPath(k, node.name) == level.value;
      } else {
        var p := ParentPath(c, n0[c].name);
        assert p in n0 && n0[p].children.Some? && c in n0[p].children.value;
      }
    }
  }

  lemma ProperPrefixDiffers(parts: seq<string>, j: nat)
    requires j < |parts| && forall i :: 0 <= i < |parts| ==> parts[i] != ""
    ensures Prefix(parts, j) != Prefix(parts, |parts|)
  {
    var full := parts[..|parts|];
    assert full == parts[..j] + parts[j..];
    if j == 0 {
      assert |Prefix(parts, |parts|)| >= 0;
      JoinLength(parts, "/");
    } else {
      JoinConcat(parts[..j], parts[j..], "/");
    }
    assert full == parts;
  }

  /** The full path is none of the first `j` prefixes, when `j` is short of all segments. */
  lemma {:induction false} NotEarlierPrefix(parts: seq<string>, j: nat)
    requires j < |parts| && forall i :: 0 <= i < |parts| ==> parts[i] != ""
    ensures Prefix(parts, |parts|) !in PrefixesUpTo(parts, j)
  {
    if j > 0 {
      NotEarlierPrefix(parts, j - 1);
      ProperPrefixDiffers(parts, j);
    }
  }

  lemma JoinLength(parts: seq<string>, sep: string)
    requires |parts| > 0
    ensures |Join(parts, sep)| >= |parts[0]|
  {
  }

  /** Item `x` is not a directory, has a path, and no earlier item's path passes through it. */
  predicate FirstToReach(files: seq<FileItem>, x: nat)
    requires x < |files|
  {
    !IsDirItem(files[x]) && NormPath(files[x]) != "" && NormPath(files[x]) !in AllPrefixes(files[..x])
  }

  /** The file items among the first `i` that no earlier item reaches have file nodes. */
  ghost predicate FilesReached(nodes: map<string, Node>, files: seq<FileItem>, i: nat)
    requires i <= |files|
  {
    forall x :: 0 <= x < i && FirstToReach(files, x) ==>
      NormPath(files[x]) in nodes && nodes[NormPath(files[x])].kind == FileNode
  }

  /** One more item keeps the earlier file nodes and adds its own when it is the first to reach it. */
  lemma ReachedStep(n0: map<string, Node>, n1: map<string, Node>, files: seq<FileItem>, i: nat)
    requires i < |files| && n0.Keys == AllPrefixes(files[..i]) && FilesReached(n0, files, i)
    requires forall k :: k in n0 ==> k in n1 && n1[k].kind == n0[k].kind
    requires !IsDirItem(files[i]) && NormPath(files[i]) != "" && NormPath(files[i]) !in n0 ==>
               NormPath(files[i]) in n1 && n1[NormPath(files[i])].kind == FileNode
    ensures FilesReached(n1, files, i + 1)
  {
  }

  /**
   * `buildFileTree`'s `forEach` over the items in the order given (the
   * source sorts them first): one node per distinct prefix path, file nodes
   * exactly for the full paths of non-directory items that no earlier item
   * reaches, every one-segment path on the top level, and, when no file item
   * sits on another item's path, every node on its parent's children list
   * and every child's path its parent's extended by its name.
   */
  method BuildFileTree(files: seq<FileItem>) returns (tree: FileTree)
    ensures fresh(tree) && tree.Valid()
    ensures tree.nodes.Keys == AllPrefixes(files)
    ensures forall k :: k in tree.nodes && tree.nodes[k].kind == FileNode ==>
              exists x :: 0 <= x < |files| && !IsDirItem(files[x]) && k == NormPath(files[x])
    ensures forall x :: 0 <= x < |files| && FirstToReach(files, x) ==>
              NormPath(files[x]) in tree.nodes && tree.nodes[NormPath(files[x])].kind == FileNode
    ensures forall k :: k in tree.nodes && '/' !in k ==> k in tree.roots
    ensures NoFileIsProperPrefix(files) ==> Linked(tree.nodes, tree.roots) && ChildrenPlaced(tree.nodes)
  {
    tree := new FileTree();
    var i := 0;
    while i < |files|
      invariant 0 <= i <= |files| && tree.Valid()
      invariant tree.nodes.Keys == AllPrefixes(files[..i])
      invariant forall k :: k in tree.nodes && tree.nodes[k].kind == FileNode ==>
                  exists x :: 0 <= x < i && !IsDirItem(files[x]) && k == NormPath(files[x])
      invariant FilesReached(tree.nodes, files, i)
      invariant NoFileIsProperPrefix(files) ==> !tree.strayed
    {
      assert files[..i + 1][..i] == files[..i];
      var parts := Parts(PathOf(files[i]));
      ghost var guarded := NoFileIsProperPrefix(files);
      assert guarded ==> forall m :: 1 <= m < |parts| && Prefix(parts, m) in tree.nodes ==>
                                     tree.nodes[Prefix(parts, m)].kind != FileNode;
      ghost var n0 := tree.nodes;
      tree.Insert(files[i], guarded);
      ReachedStep(n0, tree.nodes, files, i);
      i := i + 1;
    }
    assert files[..|files|] == files;
  }

  // ---------------------------------------------------------------------
  // File helpers

  /** `toggleFolder`: the copied set with `path` added when absent and removed when present. */
  function ToggleFolder(expanded: set<string>, path: string): (r: set<string>)
    ensures path in r <==> path !in expanded
    ensures forall q :: q != path ==> (q in r <==> q in expanded)
  {
    if path in expanded then expanded - {path} else expanded + {path}
  }

  /** Toggling the same folder twice gives back the set it started from. */
  lemma ToggleFolderTwice(expanded: set<string>, path: string)
    ensures ToggleFolder(ToggleFolder(expanded, path), path) == expanded
  {
    var once := ToggleFolder(expanded, path);
    var twice := ToggleFolder(once, path);
    assert forall q :: q in twice <==> q in expanded;
  }

  /**
   * `getFileExtension`: the last piece of `split('.')`, lower-cased. `pop`
   * of a split always yields a string, so the `|| ''` default never
   * changes the result.
   */
  function GetFileExtension(filename: string): (r: string)
    ensures r == Lower(AfterLast(filename, '.'))
    ensures '.' !in r
  {
    var pieces := Split(filename, '.');
    SplitLastPiece(filename, '.');
    LowerKeepsOut(AfterLast(filename, '.'), '.');
    Lower(pieces[|pieces| - 1])
  }

  /** The extension table of `getLanguageFromExtension`. */
  const LanguageMap: map<string, string> := map[
    "js" := "javascript", "jsx" := "jsx", "ts" := "typescript", "tsx" := "tsx",
    "py" := "python", "json" := "json", "html" := "html", "css" := "css",
    "scss" := "scss", "sass" := "sass", "md" := "markdown", "yml" := "yaml",
    "yaml" := "yaml", "xml" := "xml", "sql" := "sql", "sh" := "bash",
    "bash" := "bash", "zsh" := "bash", "fish" := "bash", "rs" := "rust",
    "go" := "go", "java" := "java", "c" := "c", "cpp" := "cpp",
    "h" := "c", "hpp" := "cpp"]

  /** `languageMap[extension] || 'text'`: every mapped language is non-empty, so the default only covers unknown keys. */
  function GetLanguageFromExtension(extension: string): (r: string)
    ensures extension in LanguageMap ==> r == LanguageMap[extension]
    ensures extension !in LanguageMap ==> r == "text"
  {
    if extension in LanguageMap && LanguageMap[extension] != "" then LanguageMap[extension] else "text"
  }

  /** A name whose text after its last dot lower-cases to a known extension gets that extension's language. */
  lemma LanguageOfFileName(stem: string, suffix: string)
    requires '.' !in suffix && Lower(suffix) in LanguageMap
    ensures GetLanguageFromExtension(GetFileExtension(stem + "." + suffix)) == LanguageMap[Lower(suffix)]
  {
    var name := stem + "." + suffix;
    assert name[|stem|] == '.';
    assert name[|stem| + 1..] == suffix;
    var k := LastIndexOfChar(name, '.').value;
    assert k == |stem|;
    assert AfterLast(name, '.') == suffix;
  }

  // ---------------------------------------------------------------------
  // parseFileContent

  /** What `JSON.parse` gives: a string, or any other value with its `JSON.stringify(v, null, 2)` text. */
  datatype JsonValue = JString(text: string) | JOther(pretty: string)

  /** The five escape replacements, `\\n` first and `\\\\` last, each over the whole text. */
  function Unescape(s: string): (r: string)
    ensures |r| <= |s|
  {
    var s1 := ReplaceAll(s, "\\n", "\n");
    var s2 := ReplaceAll(s1, "\\r", "\r");
    var s3 := ReplaceAll(s2, "\\t", "\t");
    var s4 := ReplaceAll(s3, "\\\"", "\"");
    ReplaceAllShrinks(s, "\\n", "\n");
    ReplaceAllShrinks(s1, "\\r", "\r");
    ReplaceAllShrinks(s2, "\\t", "\t");
    ReplaceAllShrinks(s3, "\\\"", "\"");
    ReplaceAllShrinks(s4, "\\\\", "\\");
    ReplaceAll(s4, "\\\\", "\\")
  }

  /** Every pattern starts with a backslash, so text without one is left alone. */
  lemma UnescapeWithoutBackslash(s: string)
    requires '\\' !in s
    ensures Unescape(s) == s
  {
    AbsentHead(s, "\\n", '\\');
    AbsentHead(s, "\\r", '\\');
    AbsentHead(s, "\\t", '\\');
    AbsentHead(s, "\\\"", '\\');
    AbsentHead(s, "\\\\", '\\');
  }

  /**
   * `parseFileContent`, with `parse` standing for `JSON.parse` (`None`
   * when it throws): a JSON string is unescaped, another JSON value is
   * shown pretty-printed, and text that is not JSON is unescaped as is.
   */
  function ParseFileContent(raw: string, parse: string -> Option<JsonValue>): (r: string)
    ensures parse(raw).None? ==> |r| <= |raw|
    ensures parse(raw).Some? && parse(raw).value.JString? ==> |r| <= |parse(raw).value.text|
  {
    match parse(raw)
    case Some(JString(text)) => Unescape(text)
    case Some(JOther(pretty)) => pretty
    case None => Unescape(raw)
  }

  /** Content that is not JSON and holds no backslash is shown exactly as stored. */
  lemma PlainContentUnchanged(raw: string, parse: string -> Option<JsonValue>)
    requires parse(raw).None? && '\\' !in raw
    ensures ParseFileContent(raw, parse) == raw
  {
    UnescapeWithoutBackslash(raw);
  }

  /** The replacements run in sequence, so an escaped backslash before `n` still becomes a newline. */
  lemma EscapedBackslashBeforeN()
    ensures Unescape("\\\\n") == "\\\n"
  {
    var raw := "\\\\n";
    var t := "\\\n";
    assert raw[..2][1] == '\\';
    assert raw[1..] == "\\n" && "\\n"[2..] == "";
    assert ReplaceAll(raw, "\\n", "\n") == t;
    assert t[..2][1] == '\n' && t[1..] == "\n";
    assert ReplaceAll(t, "\\r", "\r") == t;
    assert ReplaceAll(t, "\\t", "\t") == t;
    assert ReplaceAll(t, "\\\"", "\"") == t;
    assert ReplaceAll(t, "\\\\", "\\") == t;
  }
}
