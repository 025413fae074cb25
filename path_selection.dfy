/**
  `_select_paths` of `src/context/service.py` (and of `src/context.py`): which
  files of the repository tree are indexed. The target paths of the pull
  request come first, as given; then eligible tree entries, document paths
  before code paths, until `max_files` paths are selected.

  The two copies differ only in which eligible paths count as documents, so
  the test is a parameter.
*/
module PathSelection {
  import opened PyText
  import opened Chunking

  /**
    An entry of the git tree listing: `node.get("type")`, `node.get("path") or ""`
    and `node.get("size", 0)`, with a missing type read as `""`.
  */
  datatype TreeNode = TreeNode(kind: string, path: string, size: int)

  /** The tree loop keeps a blob whose path is interesting, not too large and not a target. */
  predicate Eligible(n: TreeNode, targets: seq<string>, maxFileBytes: int) {
    n.kind == "blob" && IsInterestingPath(n.path) && !(n.size > maxFileBytes) && n.path !in targets
  }

  /** The paths the tree loop puts in `doc_paths` (`docs`) or `code_paths` (`!docs`) among the first `k` entries. */
  function Kept(tree: seq<TreeNode>, k: nat, targets: seq<string>, maxFileBytes: int,
                isDocument: string -> bool, docs: bool): seq<string>
    requires k <= |tree|
  {
    if k == 0 then []
    else
      var n := tree[k - 1];
      Kept(tree, k - 1, targets, maxFileBytes, isDocument, docs)
      + (if Eligible(n, targets, maxFileBytes) && isDocument(n.path) == docs then [n.path] else [])
  }

  /** What `_select_paths` returns. */
  function Selection(tree: seq<TreeNode>, targets: seq<string>, maxFileBytes: int, maxFiles: int,
                     isDocument: string -> bool): seq<string>
  {
    var room := Max(maxFiles - |targets|, 0);
    var docs := PyTake(Kept(tree, |tree|, targets, maxFileBytes, isDocument, true), room);
    var code := PyTake(Kept(tree, |tree|, targets, maxFileBytes, isDocument, false), room - |docs|);
    targets + docs + code
  }

  /** `_select_paths`: the targets, then the tree loop, then the two capped copy loops. */
  method SelectPaths(tree: seq<TreeNode>, targets: seq<string>, maxFileBytes: int, maxFiles: int,
                     isDocument: string -> bool) returns (selected: seq<string>)
    ensures selected == Selection(tree, targets, maxFileBytes, maxFiles, isDocument)
  {
    selected := [];
    var seen: set<string> := {};
    var i := 0;
    while i < |targets|
      invariant 0 <= i <= |targets|
      invariant selected == targets[..i]
      invariant seen == set p | p in targets[..i]
    {
      seen := seen + {targets[i]};
      selected := selected + [targets[i]];
      assert targets[..i + 1] == targets[..i] + [targets[i]];
      i := i + 1;
    }
    assert targets[..i] == targets;
    var docPaths, codePaths := SplitTree(tree, seen, targets, maxFileBytes, isDocument);
    ghost var room := Max(maxFiles - |targets|, 0);
    selected := AppendCapped(selected, docPaths, maxFiles);
    ghost var taken := |selected| - |targets|;
    selected := AppendCapped(selected, codePaths, maxFiles);
    assert selected == targets + PyTake(docPaths, room) + PyTake(codePaths, room - taken);
  }

  /** The tree loop: eligible paths are sorted into documents and code, in tree order. */
  method SplitTree(tree: seq<TreeNode>, seen: set<string>, ghost targets: seq<string>, maxFileBytes: int,
                   isDocument: string -> bool) returns (docPaths: seq<string>, codePaths: seq<string>)
    requires seen == set p | p in targets
    ensures docPaths == Kept(tree, |tree|, targets, maxFileBytes, isDocument, true)
    ensures codePaths == Kept(tree, |tree|, targets, maxFileBytes, isDocument, false)
  {
    docPaths, codePaths := [], [];
    var k := 0;
    while k < |tree|
      invariant 0 <= k <= |tree|
      invariant docPaths == Kept(tree, k, targets, maxFileBytes, isDocument, true)
      invariant codePaths == Kept(tree, k, targets, maxFileBytes, isDocument, false)
    {
      var n := tree[k];
      k := k + 1;
      if n.kind != "blob" {
        continue;
      }
      var path := n.path;
      if !IsInterestingPath(path) {
        continue;
      }
      if n.size > maxFileBytes {
        continue;
      }
      if path in seen {
        continue;
      }
      if isDocument(path) {
        docPaths := docPaths + [path];
      } else {
        codePaths := codePaths + [path];
      }
    }
  }

  /** A copy loop: append `paths` in order, stopping once `maxFiles` paths are selected. */
  method AppendCapped(selected: seq<string>, paths: seq<string>, maxFiles: int) returns (r: seq<string>)
    ensures r == selected + PyTake(paths, Max(maxFiles - |selected|, 0))
  {
    r := selected;
    ghost var room := Max(maxFiles - |selected|, 0);
    var j := 0;
    while j < |paths|
      invariant 0 <= j <= |paths| && j <= room
      invariant r == selected + paths[..j]
    {
      if |r| >= maxFiles {
        break;
      }
      r := r + [paths[j]];
      assert paths[..j + 1] == paths[..j] + [paths[j]];
      j := j + 1;
    }
    assert j == |paths| || j == room;
  }

  // ---------------------------------------------------------------------------
  // What the selection promises

  /** Every kept path comes from an eligible entry of the tree, with the requested classification. */
  lemma {:induction false} KeptEligible(tree: seq<TreeNode>, k: nat, targets: seq<string>, maxFileBytes: int,
                                        isDocument: string -> bool, docs: bool, i: int) returns (j: int)
    requires k <= |tree| && 0 <= i < |Kept(tree, k, targets, maxFileBytes, isDocument, docs)|
    ensures 0 <= j < k && Eligible(tree[j], targets, maxFileBytes) && isDocument(tree[j].path) == docs
    ensures tree[j].path == Kept(tree, k, targets, maxFileBytes, isDocument, docs)[i]
  {
    var prev := Kept(tree, k - 1, targets, maxFileBytes, isDocument, docs);
    if i < |prev| {
      j := KeptEligible(tree, k - 1, targets, maxFileBytes, isDocument, docs, i);
    } else {
      j := k - 1;
    }
  }

  /** Every eligible entry of the tree with the requested classification is kept. */
  lemma {:induction false} KeptComplete(tree: seq<TreeNode>, k: nat, targets: seq<string>, maxFileBytes: int,
                                        isDocument: string -> bool, docs: bool, j: int)
    requires 0 <= j < k <= |tree|
    requires Eligible(tree[j], targets, maxFileBytes) && isDocument(tree[j].path) == docs
    ensures tree[j].path in Kept(tree, k, targets, maxFileBytes, isDocument, docs)
  {
    if j < k - 1 {
      KeptComplete(tree, k - 1, targets, maxFileBytes, isDocument, docs, j);
    }
  }

  /**
    The targets come first and unfiltered; the selection is cut at
    `max(maxFiles, |targets|)`; everything after the targets is an eligible tree
    path; and no document path follows a code path.
  */
  lemma SelectionShape(tree: seq<TreeNode>, targets: seq<string>, maxFileBytes: int, maxFiles: int,
                       isDocument: string -> bool)
    ensures |targets| <= |Selection(tree, targets, maxFileBytes, maxFiles, isDocument)|
    ensures Selection(tree, targets, maxFileBytes, maxFiles, isDocument)[..|targets|] == targets
    ensures |Selection(tree, targets, maxFileBytes, maxFiles, isDocument)| <= Max(maxFiles, |targets|)
    ensures forall i | |targets| <= i < |Selection(tree, targets, maxFileBytes, maxFiles, isDocument)| ::
              var p := Selection(tree, targets, maxFileBytes, maxFiles, isDocument)[i];
              IsInterestingPath(p) && p !in targets
    ensures forall i, j | |targets| <= i < j < |Selection(tree, targets, maxFileBytes, maxFiles, isDocument)| ::
              isDocument(Selection(tree, targets, maxFileBytes, maxFiles, isDocument)[j]) ==>
              isDocument(Selection(tree, targets, maxFileBytes, maxFiles, isDocument)[i])
  {
    var r := Selection(tree, targets, maxFileBytes, maxFiles, isDocument);
    var room := Max(maxFiles - |targets|, 0);
    var allDocs := Kept(tree, |tree|, targets, maxFileBytes, isDocument, true);
    var allCode := Kept(tree, |tree|, targets, maxFileBytes, isDocument, false);
    var docs := PyTake(allDocs, room);
    var code := PyTake(allCode, room - |docs|);
    assert r == targets + docs + code;
    forall i | |targets| <= i < |r|
      ensures IsInterestingPath(r[i]) && r[i] !in targets
      ensures isDocument(r[i]) <==> i < |targets| + |docs|
    {
      if i < |targets| + |docs| {
        var j := KeptEligible(tree, |tree|, targets, maxFileBytes, isDocument, true, i - |targets|);
      } else {
        var j := KeptEligible(tree, |tree|, targets, maxFileBytes, isDocument, false, i - |targets| - |docs|);
      }
    }
  }

  /** When the selection stops short of `maxFiles`, every eligible tree path is in it. */
  lemma SelectionComplete(tree: seq<TreeNode>, targets: seq<string>, maxFileBytes: int, maxFiles: int,
                          isDocument: string -> bool, j: int)
    requires 0 <= j < |tree| && Eligible(tree[j], targets, maxFileBytes)
    requires |Selection(tree, targets, maxFileBytes, maxFiles, isDocument)| < maxFiles
    ensures tree[j].path in Selection(tree, targets, maxFileBytes, maxFiles, isDocument)
  {
    var room := Max(maxFiles - |targets|, 0);
    var allDocs := Kept(tree, |tree|, targets, maxFileBytes, isDocument, true);
    var allCode := Kept(tree, |tree|, targets, maxFileBytes, isDocument, false);
    var docs := PyTake(allDocs, room);
    var code := PyTake(allCode, room - |docs|);
    KeptComplete(tree, |tree|, targets, maxFileBytes, isDocument, isDocument(tree[j].path), j);
    assert docs == allDocs;
    assert code == allCode;
  }
}
