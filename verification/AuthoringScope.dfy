/**
 Capture and terminal reinspection of an authored tree (src/authoringEffectScope.ts).

 A path is its components below its root directory, so "within" is "has as a prefix"; SHA-256 is the
 content itself.  The tree does not change while it is inspected.  `ReadDir` lists a directory in
 any order, and the visits sort what it lists.
 */
module AuthoringScope {
  import opened Ordering
  import opened Outcomes

  type Name = string
  type Path = seq<Name>

  const MAX_TREE_ENTRIES: nat := 1024
  const MAX_INITIAL_FILES: nat := 128
  const MAX_INITIAL_FILE_BYTES: nat := 64 * 1024 * 1024
  const MAX_INITIAL_TOTAL_BYTES: nat := 128 * 1024 * 1024
  const MAX_WRITABLE_FILE_BYTES: nat := 16 * 1024 * 1024
  const MAX_WRITABLE_TOTAL_BYTES: nat := 32 * 1024 * 1024
  const MIN_SPARSE_BYTES: nat := 1024 * 1024

  datatype Node =
    | Dir(device: nat, inode: nat, children: map<Name, Node>)
    | File(device: nat, inode: nat, links: nat, size: nat, blocks: nat, content: string)
    | Symlink
    | Special

  datatype Scope = ExactOutputs(paths: seq<Path>) | StateSubtree(root: Path)

  datatype Entry =
    | DirEntry(path: Path, device: nat, inode: nat)
    | FileEntry(path: Path, device: nat, inode: nat, size: nat, content: string)

  datatype ScopeError = TooManyEntries | HasSymlink | NotRegular | Linked | TooManyFiles | FileTooLarge | Sparse | TooManyBytes

  // ---------------------------------------------------------------- the tree

  function At(node: Node, path: Path): Option<Node>
    decreases |path|
  {
    if path == [] then Some(node)
    else if node.Dir? && path[0] in node.children then At(node.children[path[0]], path[1..])
    else None
  }

  predicate CharBelow(a: char, b: char) {
    a < b
  }

  /** UTF-8 byte order is code point order. */
  predicate NameLess(a: Name, b: Name) {
    Lexicographic(CharBelow, a, b)
  }

  lemma NameLessIsStrictTotal()
    ensures StrictTotal(NameLess)
  {
    assert StrictTotal(CharBelow);
    forall a: Name ensures !NameLess(a, a) { LexicographicIrreflexive(CharBelow, a); }
    forall a: Name, b: Name ensures a == b || NameLess(a, b) || NameLess(b, a) { LexicographicTotal(CharBelow, a, b); }
    forall a: Name, b: Name, c: Name | NameLess(a, b) && NameLess(b, c) ensures NameLess(a, c) {
      LexicographicTransitive(CharBelow, a, b, c);
    }
  }

  ghost predicate Lists(names: seq<Name>, keys: set<Name>) {
    Distinct(names) && forall name :: name in names <==> name in keys
  }

  /** `readdir`: every child once, in no particular order. */
  method ReadDir(node: Node) returns (names: seq<Name>)
    requires node.Dir?
    ensures Lists(names, node.children.Keys)
  {
    var todo := node.children.Keys;
    names := [];
    while todo != {}
      invariant Distinct(names) && todo <= node.children.Keys
      invariant forall name :: name in names <==> name in node.children.Keys && name !in todo
    {
      var name :| name in todo;
      names, todo := names + [name], todo - {name};
    }
  }

  lemma {:induction false} SomeListing(keys: set<Name>) returns (names: seq<Name>)
    ensures Lists(names, keys)
    decreases |keys|
  {
    names := [];
    if keys != {} {
      var name :| name in keys;
      var rest := SomeListing(keys - {name});
      names := [name] + rest;
    }
  }

  /** The children in the order every visit takes them. */
  ghost function SortedNames(keys: set<Name>): (names: seq<Name>)
    ensures Sorted(NameLess, names) && forall name :: name in names <==> name in keys
  {
    assert exists listed :: Lists(listed, keys) by { var listed := SomeListing(keys); assert Lists(listed, keys); }
    var listed :| Lists(listed, keys);
    NameLessIsStrictTotal();
    SortSorts(NameLess, listed);
    Sort(NameLess, listed)
  }

  /** However a directory is listed, sorting gives the same order. */
  lemma ListingOrderIsIrrelevant(names: seq<Name>, keys: set<Name>)
    requires Lists(names, keys)
    ensures Sort(NameLess, names) == SortedNames(keys)
  {
    NameLessIsStrictTotal();
    SortSorts(NameLess, names);
    SortedIsUnique(NameLess, Sort(NameLess, names), SortedNames(keys));
  }

  datatype Visit = Visit(path: Path, node: Node)

  ghost function Walk(node: Node, path: Path): seq<Visit>
    decreases node, 1, 0
  {
    [Visit(path, node)] + if node.Dir? then WalkAll(node, path, SortedNames(node.children.Keys)) else []
  }

  ghost function WalkAll(node: Node, path: Path, names: seq<Name>): seq<Visit>
    requires node.Dir? && forall name :: name in names ==> name in node.children
    decreases node, 0, |names|
  {
    if names == [] then []
    else Walk(node.children[names[0]], path + [names[0]]) + WalkAll(node, path, names[1..])
  }

  /** A visit is made to each path of the tree. */
  lemma {:induction false} WalkFinds(node: Node, base: Path, path: Path)
    requires At(node, path).Some?
    ensures Visit(base + path, At(node, path).value) in Walk(node, base)
    decreases |path|, 1, 0
  {
    if path == [] {
      assert base + path == base;
    } else {
      WalkAllFinds(node, base, SortedNames(node.children.Keys), path);
    }
  }

  lemma {:induction false} WalkAllFinds(node: Node, base: Path, names: seq<Name>, path: Path)
    requires node.Dir? && forall name :: name in names ==> name in node.children
    requires path != [] && path[0] in names && At(node, path).Some?
    ensures Visit(base + path, At(node, path).value) in WalkAll(node, base, names)
    decreases |path|, 0, |names|
  {
    if names[0] == path[0] {
      WalkFinds(node.children[names[0]], base + [names[0]], path[1..]);
      assert base + [names[0]] + path[1..] == base + path;
    } else {
      WalkAllFinds(node, base, names[1..], path);
    }
  }

  /** And to nothing else. */
  lemma {:induction false} WalkOnly(node: Node, base: Path, visit: Visit)
    requires visit in Walk(node, base)
    ensures base <= visit.path && At(node, visit.path[|base|..]) == Some(visit.node)
    decreases node, 1, 0
  {
    if visit == Visit(base, node) {
    } else {
      WalkAllOnly(node, base, SortedNames(node.children.Keys), visit);
    }
  }

  lemma {:induction false} WalkAllOnly(node: Node, base: Path, names: seq<Name>, visit: Visit)
    requires node.Dir? && forall name :: name in names ==> name in node.children
    requires visit in WalkAll(node, base, names)
    ensures base <= visit.path && At(node, visit.path[|base|..]) == Some(visit.node)
    decreases node, 0, |names|
  {
    if visit in Walk(node.children[names[0]], base + [names[0]]) {
      WalkOnly(node.children[names[0]], base + [names[0]], visit);
      assert visit.path[|base|..][1..] == visit.path[|base| + 1..];
      assert base <= base + [names[0]] <= visit.path;
    } else {
      WalkAllOnly(node, base, names[1..], visit);
    }
  }

  lemma WalkIsTheTree(tree: Node, path: Path, node: Node)
    ensures Visit(path, node) in Walk(tree, []) <==> At(tree, path) == Some(node)
  {
    if At(tree, path) == Some(node) {
      WalkFinds(tree, [], path);
      assert [] + path == path;
    }
    if Visit(path, node) in Walk(tree, []) {
      WalkOnly(tree, [], Visit(path, node));
      assert path[0..] == path;
    }
  }

  lemma {:induction false} AncestorsAreDirs(tree: Node, path: Path, below: Path)
    requires path <= below && At(tree, below).Some?
    ensures At(tree, path).Some? && (path != below ==> At(tree, path).value.Dir?)
    decreases |path|
  {
    if path != [] {
      AncestorsAreDirs(tree.children[path[0]], path[1..], below[1..]);
    }
  }

  // ---------------------------------------------------------------- capturing

  predicate IsSparse(node: Node)
    requires node.File?
  {
    // Less than half of the logical size is allocated.
    node.size >= MIN_SPARSE_BYTES && node.blocks * 512 * 2 < node.size
  }

  predicate Ignored(scope: Scope, path: Path) {
    scope.StateSubtree? && scope.root <= path
  }

  predicate DeclaredOutput(scope: Scope, path: Path) {
    scope.ExactOutputs? && path in scope.paths
  }

  /** Why a visit fails by itself, before any total is looked at. */
  function VisitError(scope: Scope, visit: Visit): Option<ScopeError> {
    match visit.node
    case Symlink => Some(HasSymlink)
    case Dir(_, _, _) => None
    case Special => Some(NotRegular)
    case File(_, _, links, size, _, _) =>
      if links != 1 then Some(Linked)
      else if Ignored(scope, visit.path) || DeclaredOutput(scope, visit.path) then None
      else if size > MAX_INITIAL_FILE_BYTES then Some(FileTooLarge)
      else if IsSparse(visit.node) then Some(Sparse)
      else None
  }

  /** What a visit adds to the entries. */
  function EntryOf(scope: Scope, visit: Visit): Option<Entry> {
    match visit.node
    case Dir(device, inode, _) =>
      if Ignored(scope, visit.path) then None else Some(DirEntry(visit.path, device, inode))
    case File(device, inode, _, size, _, content) =>
      if Ignored(scope, visit.path) || DeclaredOutput(scope, visit.path) then None
      else Some(FileEntry(visit.path, device, inode, size, content))
    case _ => None
  }

  function FileCount(scope: Scope, visits: seq<Visit>): nat {
    if visits == [] then 0
    else
      var entry := EntryOf(scope, visits[|visits| - 1]);
      FileCount(scope, visits[..|visits| - 1]) + if entry.Some? && entry.value.FileEntry? then 1 else 0
  }

  function FileBytes(scope: Scope, visits: seq<Visit>): nat {
    if visits == [] then 0
    else
      var entry := EntryOf(scope, visits[|visits| - 1]);
      FileBytes(scope, visits[..|visits| - 1]) + if entry.Some? && entry.value.FileEntry? then entry.value.size else 0
  }

  /** Regular, singly linked and within every limit. */
  predicate Acceptable(scope: Scope, visits: seq<Visit>) {
    && |visits| <= MAX_TREE_ENTRIES
    && (forall k :: 0 <= k < |visits| ==> VisitError(scope, visits[k]).None?)
    && FileCount(scope, visits) <= MAX_INITIAL_FILES
    && FileBytes(scope, visits) <= MAX_INITIAL_TOTAL_BYTES
  }

  /** A directory, or a file with one link. */
  predicate Regular(node: Node) {
    node.Dir? || (node.File? && node.links == 1)
  }

  /** A file that is captured is neither too large nor materially sparse. */
  predicate ModestFile(scope: Scope, visit: Visit) {
    visit.node.File? && !Ignored(scope, visit.path) && !DeclaredOutput(scope, visit.path) ==>
      visit.node.size <= MAX_INITIAL_FILE_BYTES && !IsSparse(visit.node)
  }

  /** The limits on sizes and numbers alone. */
  predicate WithinLimits(scope: Scope, visits: seq<Visit>) {
    && |visits| <= MAX_TREE_ENTRIES
    && (forall k :: 0 <= k < |visits| ==> ModestFile(scope, visits[k]))
    && FileCount(scope, visits) <= MAX_INITIAL_FILES
    && FileBytes(scope, visits) <= MAX_INITIAL_TOTAL_BYTES
  }

  lemma AcceptableExactly(scope: Scope, visits: seq<Visit>)
    ensures Acceptable(scope, visits) <==>
              WithinLimits(scope, visits) && forall k :: 0 <= k < |visits| ==> Regular(visits[k].node)
  {
    forall k | 0 <= k < |visits|
      ensures VisitError(scope, visits[k]).None? <==> Regular(visits[k].node) && ModestFile(scope, visits[k])
    {
    }
  }

  /** The entries of the visits, in their order. */
  function EntriesOf(scope: Scope, visits: seq<Visit>): seq<Entry> {
    if visits == [] then []
    else
      var entry := EntryOf(scope, visits[|visits| - 1]);
      EntriesOf(scope, visits[..|visits| - 1]) + if entry.Some? then [entry.value] else []
  }

  lemma {:induction false} EntriesContain(scope: Scope, visits: seq<Visit>, entry: Entry)
    ensures entry in EntriesOf(scope, visits) <==> exists visit :: visit in visits && EntryOf(scope, visit) == Some(entry)
  {
    if visits != [] {
      var init, last := visits[..|visits| - 1], visits[|visits| - 1];
      EntriesContain(scope, init, entry);
      assert visits == init + [last];
    }
  }

  lemma AcceptableShrinks(scope: Scope, visits: seq<Visit>, next: Visit)
    ensures Acceptable(scope, visits + [next]) <==>
              && Acceptable(scope, visits)
              && |visits| < MAX_TREE_ENTRIES
              && VisitError(scope, next).None?
              && (EntryOf(scope, next).Some? && EntryOf(scope, next).value.FileEntry? ==>
                    FileCount(scope, visits) < MAX_INITIAL_FILES
                    && FileBytes(scope, visits) + EntryOf(scope, next).value.size <= MAX_INITIAL_TOTAL_BYTES)
  {
    var all := visits + [next];
    assert all[..|all| - 1] == visits;
    if Acceptable(scope, all) {
      forall k | 0 <= k < |visits| ensures VisitError(scope, visits[k]).None? { assert all[k] == visits[k]; }
      assert all[|visits|] == next;
    }
  }

  lemma TotalsNext(scope: Scope, visits: seq<Visit>, next: Visit)
    ensures var all, entry := visits + [next], EntryOf(scope, next);
            && FileCount(scope, all) == FileCount(scope, visits) + (if entry.Some? && entry.value.FileEntry? then 1 else 0)
            && FileBytes(scope, all) == FileBytes(scope, visits) + (if entry.Some? && entry.value.FileEntry? then entry.value.size else 0)
            && EntriesOf(scope, all) == EntriesOf(scope, visits) + if entry.Some? then [entry.value] else []
  {
    hide EntryOf;
    assert (visits + [next])[..|visits|] == visits;
  }

  lemma AcceptableFits(scope: Scope, visits: seq<Visit>)
    requires Acceptable(scope, visits)
    ensures |visits| <= MAX_TREE_ENTRIES
  {
  }

  lemma {:induction false} AcceptableWhole(scope: Scope, visits: seq<Visit>, more: seq<Visit>)
    requires Acceptable(scope, visits + more)
    ensures Acceptable(scope, visits)
    decreases |more|
  {
    if more == [] {
      assert visits + more == visits;
    } else {
      var init, last := more[..|more| - 1], more[|more| - 1];
      assert visits + more == (visits + init) + [last];
      AcceptableShrinks(scope, visits + init, last);
      AcceptableWhole(scope, visits, init);
    }
  }

  /** One capture, with the counters its recursive visits share. */
  class Capture {
    const scope: Scope
    var entries: seq<Entry>
    var traversed: nat
    var fileCount: nat
    var totalBytes: nat
    /** The visits made so far. */
    ghost var visited: seq<Visit>

    constructor (scope: Scope)
      ensures this.scope == scope && visited == [] && Valid()
    {
      this.scope, entries, traversed, fileCount, totalBytes, visited := scope, [], 0, 0, 0, [];
    }

    ghost predicate Valid()
      reads this
    {
      && Acceptable(scope, visited)
      && traversed == |visited|
      && fileCount == FileCount(scope, visited)
      && totalBytes == FileBytes(scope, visited)
      && entries == EntriesOf(scope, visited)
    }

    /** The part of a visit that is about the path itself. */
    method Enter(path: Path, node: Node) returns (error: Option<ScopeError>)
      requires Valid()
      modifies this
      ensures error.None? <==> Acceptable(scope, old(visited) + [Visit(path, node)])
      ensures error.None? ==> Valid() && visited == old(visited) + [Visit(path, node)]
      ensures |old(visited)| == MAX_TREE_ENTRIES ==> error == Some(TooManyEntries)
      ensures |old(visited)| < MAX_TREE_ENTRIES && VisitError(scope, Visit(path, node)).Some? ==>
                error == VisitError(scope, Visit(path, node))
    {
      hide Acceptable, VisitError, EntryOf, FileCount, FileBytes, EntriesOf;
      AcceptableShrinks(scope, visited, Visit(path, node));
      AcceptableFits(scope, visited);
      TotalsNext(scope, visited, Visit(path, node));
      traversed := traversed + 1;
      if traversed > MAX_TREE_ENTRIES { return Some(TooManyEntries); }
      error := VisitError(scope, Visit(path, node));
      if error.Some? { return; }
      var entry := EntryOf(scope, Visit(path, node));
      if entry.Some? && entry.value.FileEntry? {
        fileCount := fileCount + 1;
        if fileCount > MAX_INITIAL_FILES { return Some(TooManyFiles); }
        totalBytes := totalBytes + entry.value.size;
        if totalBytes > MAX_INITIAL_TOTAL_BYTES { return Some(TooManyBytes); }
      }
      entries := entries + if entry.Some? then [entry.value] else [];
      visited := visited + [Visit(path, node)];
    }

    method VisitTree(path: Path, node: Node) returns (error: Option<ScopeError>)
      requires Valid()
      modifies this
      ensures error.None? <==> Acceptable(scope, old(visited) + Walk(node, path))
      ensures error.None? ==> Valid() && visited == old(visited) + Walk(node, path)
      decreases node, 1, 0
    {
      hide Acceptable, FileCount, FileBytes, EntriesOf, Sort, NameLess, Sorted;
      ghost var before := visited;
      error := Enter(path, node);
      assert Walk(node, path)[..1] == [Visit(path, node)];
      assert before + Walk(node, path) == (before + [Visit(path, node)]) + Walk(node, path)[1..];
      if error.Some? {
        if Acceptable(scope, before + Walk(node, path)) {
          AcceptableWhole(scope, before + [Visit(path, node)], Walk(node, path)[1..]);
        }
        return;
      }
      if !node.Dir? {
        assert before + Walk(node, path) == before + [Visit(path, node)];
        return;
      }
      var listed := ReadDir(node);
      var names := Sort(NameLess, listed);
      ListingOrderIsIrrelevant(listed, node.children.Keys);
      assert Walk(node, path)[1..] == WalkAll(node, path, names);
      error := VisitAll(path, node, names);
    }

    method VisitAll(path: Path, node: Node, names: seq<Name>) returns (error: Option<ScopeError>)
      requires Valid() && node.Dir? && forall name :: name in names ==> name in node.children
      modifies this
      ensures error.None? <==> Acceptable(scope, old(visited) + WalkAll(node, path, names))
      ensures error.None? ==> Valid() && visited == old(visited) + WalkAll(node, path, names)
      decreases node, 0, |names|
    {
      ghost var before := visited;
      if names == [] {
        assert before + WalkAll(node, path, names) == before;
        return None;
      }
      ghost var first, rest := Walk(node.children[names[0]], path + [names[0]]), WalkAll(node, path, names[1..]);
      assert before + WalkAll(node, path, names) == (before + first) + rest;
      error := VisitTree(path + [names[0]], node.children[names[0]]);
      if error.Some? {
        if Acceptable(scope, before + WalkAll(node, path, names)) { AcceptableWhole(scope, before + first, rest); }
        return;
      }
      error := VisitAll(path, node, names[1..]);
    }
  }

  /** The path as one string, from its root. */
  function Relative(path: Path): string {
    if path == [] then "." else Joined(path)
  }

  function Joined(path: Path): string
    requires path != []
  {
    if |path| == 1 then path[0] else path[0] + "/" + Joined(path[1..])
  }

  predicate EntryBefore(a: Entry, b: Entry) {
    NameLess(Relative(a.path), Relative(b.path))
  }

  /** What a capture returns: the entries by their relative paths. */
  ghost function Captured(scope: Scope, tree: Node): seq<Entry> {
    Sort(EntryBefore, EntriesOf(scope, Walk(tree, [])))
  }

  /** The entries of the visits, each as often, no later one below an earlier one. */
  lemma CapturedInOrder(scope: Scope, tree: Node)
    ensures Ascending(EntryBefore, Captured(scope, tree))
    ensures multiset(Captured(scope, tree)) == multiset(EntriesOf(scope, Walk(tree, [])))
  {
    hide *;
    assert StrictWeak(EntryBefore) by { EntryBeforeIsWeak(); }
    SortAscends(EntryBefore, EntriesOf(scope, Walk(tree, [])));
    assert Captured(scope, tree) == Sort(EntryBefore, EntriesOf(scope, Walk(tree, []))) by { CapturedIsSorted(scope, tree); }
  }

  lemma CapturedIsSorted(scope: Scope, tree: Node)
    ensures Captured(scope, tree) == Sort(EntryBefore, EntriesOf(scope, Walk(tree, [])))
  {
  }

  lemma EntryBeforeIsWeak()
    ensures StrictWeak(EntryBefore)
  {
    hide NameLess, Relative;
    NameLessIsStrictTotal();
  }

  /** Success and result are functions of the tree alone, however its directories are listed. */
  method CaptureTree(scope: Scope, tree: Node) returns (result: Result<seq<Entry>, ScopeError>)
    ensures result.Success? <==> Acceptable(scope, Walk(tree, []))
    ensures result.Success? ==> result.value == Captured(scope, tree)
  {
    var capture := new Capture(scope);
    assert [] + Walk(tree, []) == Walk(tree, []);
    var error := capture.VisitTree([], tree);
    return if error.Some? then Failure(error.value) else Success(Sort(EntryBefore, capture.entries));
  }

  /** What is captured at a path. */
  function EntryAt(scope: Scope, tree: Node, path: Path): Option<Entry> {
    match At(tree, path)
    case None => None
    case Some(node) => EntryOf(scope, Visit(path, node))
  }

  lemma CapturedExactly(scope: Scope, tree: Node, entry: Entry)
    ensures entry in Captured(scope, tree) <==> EntryAt(scope, tree, entry.path) == Some(entry)
  {
    hide Walk, EntriesOf, Sort;
    EntriesContain(scope, Walk(tree, []), entry);
    if EntryAt(scope, tree, entry.path) == Some(entry) {
      var node := At(tree, entry.path).value;
      WalkIsTheTree(tree, entry.path, node);
      assert EntryOf(scope, Visit(entry.path, node)) == Some(entry);
    }
    if visit :| visit in Walk(tree, []) && EntryOf(scope, visit) == Some(entry) {
      WalkIsTheTree(tree, visit.path, visit.node);
      assert visit.path == entry.path;
    }
  }

  // ---------------------------------------------------------------- the writable closure

  /** A single-link regular file, not materially sparse and not too large. */
  predicate BoundedFile(node: Node) {
    node.File? && node.links == 1 && node.size <= MAX_WRITABLE_FILE_BYTES && !IsSparse(node)
  }

  function OutputBytes(tree: Node, outputs: seq<Path>): nat {
    if outputs == [] then 0
    else
      var node := At(tree, outputs[|outputs| - 1]);
      OutputBytes(tree, outputs[..|outputs| - 1]) + if node.Some? && node.value.File? then node.value.size else 0
  }

  predicate OutputsClosed(tree: Node, outputs: seq<Path>) {
    && (forall output :: output in outputs ==> At(tree, output).Some? && BoundedFile(At(tree, output).value))
    && OutputBytes(tree, outputs) <= MAX_WRITABLE_TOTAL_BYTES
  }

  function SizesOf(visits: seq<Visit>): nat {
    if visits == [] then 0
    else
      var node := visits[|visits| - 1].node;
      SizesOf(visits[..|visits| - 1]) + if node.File? then node.size else 0
  }

  /** Directories and bounded files only, within the limits. */
  predicate SubtreeClosed(visits: seq<Visit>) {
    && |visits| <= MAX_TREE_ENTRIES
    && (forall k :: 0 <= k < |visits| ==> visits[k].node.Dir? || BoundedFile(visits[k].node))
    && SizesOf(visits) <= MAX_WRITABLE_TOTAL_BYTES
  }

  ghost predicate Closed(scope: Scope, tree: Node) {
    match scope
    case ExactOutputs(paths) => OutputsClosed(tree, paths)
    case StateSubtree(root) => At(tree, root).Some? ==> SubtreeClosed(Walk(At(tree, root).value, root))
  }

  lemma {:induction false} BytesGrow(tree: Node, outputs: seq<Path>, k: nat)
    requires k <= |outputs|
    ensures OutputBytes(tree, outputs[..k]) <= OutputBytes(tree, outputs)
    decreases |outputs|
  {
    if k < |outputs| {
      BytesGrow(tree, outputs[..|outputs| - 1], k);
      assert outputs[..|outputs| - 1][..k] == outputs[..k];
    } else {
      assert outputs[..k] == outputs;
    }
  }

  method InspectOutputs(tree: Node, outputs: seq<Path>) returns (closed: bool)
    ensures closed <==> OutputsClosed(tree, outputs)
  {
    var totalBytes: nat := 0;
    for k := 0 to |outputs|
      invariant totalBytes == OutputBytes(tree, outputs[..k]) <= MAX_WRITABLE_TOTAL_BYTES
      invariant forall j :: 0 <= j < k ==> At(tree, outputs[j]).Some? && BoundedFile(At(tree, outputs[j]).value)
    {
      var node := At(tree, outputs[k]);
      if node.None? || !BoundedFile(node.value) {
        assert outputs[k] in outputs;
        return false;
      }
      assert outputs[..k + 1][..k] == outputs[..k];
      totalBytes := totalBytes + node.value.size;
      if totalBytes > MAX_WRITABLE_TOTAL_BYTES {
        BytesGrow(tree, outputs, k + 1);
        return false;
      }
    }
    assert outputs[..|outputs|] == outputs;
    return true;
  }

  lemma SubtreeShrinks(visits: seq<Visit>, next: Visit)
    ensures SubtreeClosed(visits + [next]) <==>
              && SubtreeClosed(visits) && |visits| < MAX_TREE_ENTRIES
              && (next.node.Dir? || (BoundedFile(next.node) && SizesOf(visits) + next.node.size <= MAX_WRITABLE_TOTAL_BYTES))
  {
    var all := visits + [next];
    assert all[..|all| - 1] == visits && all[|visits|] == next;
    if SubtreeClosed(all) {
      forall k | 0 <= k < |visits| ensures visits[k].node.Dir? || BoundedFile(visits[k].node) { assert all[k] == visits[k]; }
    }
  }

  lemma {:induction false} SubtreeWhole(visits: seq<Visit>, more: seq<Visit>)
    requires SubtreeClosed(visits + more)
    ensures SubtreeClosed(visits)
    decreases |more|
  {
    if more == [] {
      assert visits + more == visits;
    } else {
      var init, last := more[..|more| - 1], more[|more| - 1];
      assert visits + more == (visits + init) + [last];
      SubtreeShrinks(visits + init, last);
      SubtreeWhole(visits, init);
    }
  }

  /** The inspection of the state subtree, with its own counters. */
  class Closure {
    var traversed: nat
    var totalBytes: nat
    ghost var visited: seq<Visit>

    constructor ()
      ensures visited == [] && Valid()
    {
      traversed, totalBytes, visited := 0, 0, [];
    }

    ghost predicate Valid()
      reads this
    {
      SubtreeClosed(visited) && traversed == |visited| && totalBytes == SizesOf(visited)
    }

    method Enter(path: Path, node: Node) returns (closed: bool)
      requires Valid()
      modifies this
      ensures closed <==> SubtreeClosed(old(visited) + [Visit(path, node)])
      ensures closed ==> Valid() && visited == old(visited) + [Visit(path, node)]
    {
      ghost var all := visited + [Visit(path, node)];
      SubtreeShrinks(visited, Visit(path, node));
      assert all[..|all| - 1] == visited;
      traversed := traversed + 1;
      if traversed > MAX_TREE_ENTRIES { return false; }
      if !node.Dir? {
        if !BoundedFile(node) { return false; }
        totalBytes := totalBytes + node.size;
        if totalBytes > MAX_WRITABLE_TOTAL_BYTES { return false; }
      }
      visited := all;
      return true;
    }

    method VisitTree(path: Path, node: Node) returns (closed: bool)
      requires Valid()
      modifies this
      ensures closed <==> SubtreeClosed(old(visited) + Walk(node, path))
      ensures closed ==> Valid() && visited == old(visited) + Walk(node, path)
      decreases node, 1, 0
    {
      hide SubtreeClosed, SizesOf, Sort, NameLess, Sorted;
      ghost var before := visited;
      closed := Enter(path, node);
      assert before + Walk(node, path) == (before + [Visit(path, node)]) + Walk(node, path)[1..];
      if !closed {
        if SubtreeClosed(before + Walk(node, path)) {
          SubtreeWhole(before + [Visit(path, node)], Walk(node, path)[1..]);
        }
        return;
      }
      if !node.Dir? {
        assert before + Walk(node, path) == before + [Visit(path, node)];
        return;
      }
      var listed := ReadDir(node);
      var names := Sort(NameLess, listed);
      ListingOrderIsIrrelevant(listed, node.children.Keys);
      assert Walk(node, path)[1..] == WalkAll(node, path, names);
      closed := VisitAll(path, node, names);
    }

    method VisitAll(path: Path, node: Node, names: seq<Name>) returns (closed: bool)
      requires Valid() && node.Dir? && forall name :: name in names ==> name in node.children
      modifies this
      ensures closed <==> SubtreeClosed(old(visited) + WalkAll(node, path, names))
      ensures closed ==> Valid() && visited == old(visited) + WalkAll(node, path, names)
      decreases node, 0, |names|
    {
      ghost var before := visited;
      if names == [] {
        assert before + WalkAll(node, path, names) == before;
        return true;
      }
      ghost var first, rest := Walk(node.children[names[0]], path + [names[0]]), WalkAll(node, path, names[1..]);
      assert before + WalkAll(node, path, names) == (before + first) + rest;
      closed := VisitTree(path + [names[0]], node.children[names[0]]);
      if !closed {
        if SubtreeClosed(before + WalkAll(node, path, names)) { SubtreeWhole(before + first, rest); }
        return;
      }
      closed := VisitAll(path, node, names[1..]);
    }
  }

  method InspectClosure(scope: Scope, tree: Node) returns (closed: bool)
    ensures closed <==> Closed(scope, tree)
  {
    match scope
    case ExactOutputs(paths) =>
      closed := InspectOutputs(tree, paths);
    case StateSubtree(root) =>
      var state := At(tree, root);
      if state.None? { return true; }
      var closure := new Closure();
      assert [] + Walk(state.value, root) == Walk(state.value, root);
      closed := closure.VisitTree(root, state.value);
  }

  // ---------------------------------------------------------------- terminal reinspection

  /** A new directory may only lead to something writable, and is not the root itself. */
  predicate AllowedNewDirectory(scope: Scope, path: Path) {
    path != [] && if scope.StateSubtree? then path <= scope.root else exists output :: output in scope.paths && path <= output
  }

  ghost predicate TerminalOk(scope: Scope, initial: Node, current: Node) {
    && Acceptable(scope, Walk(current, []))
    && (forall path :: EntryAt(scope, initial, path).Some? ==> EntryAt(scope, current, path) == EntryAt(scope, initial, path))
    && (forall path :: EntryAt(scope, current, path).Some? && EntryAt(scope, initial, path).None? ==>
          EntryAt(scope, current, path).value.DirEntry? && AllowedNewDirectory(scope, path))
    && Closed(scope, current)
  }

  predicate Known(entries: seq<Entry>, path: Path) {
    exists entry :: entry in entries && entry.path == path
  }

  /** An entry that was not captured before must be an allowed directory. */
  predicate NewEntryOk(scope: Scope, initialEntries: seq<Entry>, entry: Entry) {
    Known(initialEntries, entry.path) || (entry.DirEntry? && AllowedNewDirectory(scope, entry.path))
  }

  method EntriesUnchanged(initialEntries: seq<Entry>, currentEntries: seq<Entry>) returns (ok: bool)
    ensures ok <==> forall entry :: entry in initialEntries ==> entry in currentEntries
  {
    for k := 0 to |initialEntries|
      invariant forall j :: 0 <= j < k ==> initialEntries[j] in currentEntries
    {
      if initialEntries[k] !in currentEntries {
        assert initialEntries[k] in initialEntries;
        return false;
      }
    }
    return true;
  }

  method NothingUndeclared(scope: Scope, initialEntries: seq<Entry>, currentEntries: seq<Entry>) returns (ok: bool)
    ensures ok <==> forall entry :: entry in currentEntries ==> NewEntryOk(scope, initialEntries, entry)
  {
    for k := 0 to |currentEntries|
      invariant forall j :: 0 <= j < k ==> NewEntryOk(scope, initialEntries, currentEntries[j])
    {
      if !NewEntryOk(scope, initialEntries, currentEntries[k]) {
        assert currentEntries[k] in currentEntries;
        return false;
      }
    }
    return true;
  }

  /** The comparison of the two captures, entry by entry, and then the writable closure. */
  method AssertTerminal(scope: Scope, initialEntries: seq<Entry>, ghost initial: Node, current: Node) returns (ok: bool)
    requires initialEntries == Captured(scope, initial)
    ensures ok <==> TerminalOk(scope, initial, current)
  {
    hide Acceptable, EntryAt, AllowedNewDirectory, NewEntryOk, Captured, Walk, Closed;
    var captured := CaptureTree(scope, current);
    if captured.Failure? { return false; }
    var kept := EntriesUnchanged(initialEntries, captured.value);
    var declared := NothingUndeclared(scope, initialEntries, captured.value);
    EntriesUnchangedExactly(scope, initial, current);
    NothingUndeclaredExactly(scope, initial, current);
    if !kept || !declared { return false; }
    ok := InspectClosure(scope, current);
  }

  lemma EntriesUnchangedExactly(scope: Scope, initial: Node, current: Node)
    ensures (forall entry :: entry in Captured(scope, initial) ==> entry in Captured(scope, current))
       <==> forall path :: EntryAt(scope, initial, path).Some? ==> EntryAt(scope, current, path) == EntryAt(scope, initial, path)
  {
    hide Captured;
    forall entry: Entry
      ensures entry in Captured(scope, initial) <==> EntryAt(scope, initial, entry.path) == Some(entry)
      ensures entry in Captured(scope, current) <==> EntryAt(scope, current, entry.path) == Some(entry)
    {
      CapturedExactly(scope, initial, entry);
      CapturedExactly(scope, current, entry);
    }
    forall path | EntryAt(scope, initial, path).Some? ensures EntryAt(scope, initial, path).value.path == path {}
  }

  lemma NothingUndeclaredExactly(scope: Scope, initial: Node, current: Node)
    ensures (forall entry :: entry in Captured(scope, current) ==>
               NewEntryOk(scope, Captured(scope, initial), entry))
       <==> forall path :: EntryAt(scope, current, path).Some? && EntryAt(scope, initial, path).None? ==>
              EntryAt(scope, current, path).value.DirEntry? && AllowedNewDirectory(scope, path)
  {
    hide Captured, EntryAt, AllowedNewDirectory, Known;
    var before, entries := Captured(scope, initial), Captured(scope, current);
    if forall entry :: entry in entries ==> NewEntryOk(scope, before, entry) {
      forall path | EntryAt(scope, current, path).Some? && EntryAt(scope, initial, path).None?
        ensures EntryAt(scope, current, path).value.DirEntry? && AllowedNewDirectory(scope, path)
      {
        var entry := EntryAt(scope, current, path).value;
        EntryHasPath(scope, current, path);
        CapturedExactly(scope, current, entry);
        NotInitial(scope, initial, before, path);
        assert NewEntryOk(scope, before, entry);
      }
    }
    if forall path :: EntryAt(scope, current, path).Some? && EntryAt(scope, initial, path).None? ==>
         EntryAt(scope, current, path).value.DirEntry? && AllowedNewDirectory(scope, path) {
      forall entry | entry in entries ensures NewEntryOk(scope, before, entry) {
        CapturedExactly(scope, current, entry);
        NotInitial(scope, initial, before, entry.path);
      }
    }
  }

  lemma EntryHasPath(scope: Scope, tree: Node, path: Path)
    ensures EntryAt(scope, tree, path).Some? ==> EntryAt(scope, tree, path).value.path == path
  {
  }

  lemma NotInitial(scope: Scope, initial: Node, entries: seq<Entry>, path: Path)
    requires entries == Captured(scope, initial)
    ensures EntryAt(scope, initial, path).None? <==> !Known(entries, path)
  {
    if EntryAt(scope, initial, path).Some? { CapturedExactly(scope, initial, EntryAt(scope, initial, path).value); }
    forall entry | entry in entries && entry.path == path ensures EntryAt(scope, initial, path).Some? {
      CapturedExactly(scope, initial, entry);
    }
  }

  // ---------------------------------------------------------------- what it means for the tree

  /** Identity, and for a file its bytes. */
  predicate SameIdentity(a: Node, b: Node) {
    match a
    case Dir(device, inode, _) => b.Dir? && b.device == device && b.inode == inode
    case File(device, inode, _, size, _, content) =>
      b.File? && b.device == device && b.inode == inode && b.size == size && b.content == content
    case _ => false
  }

  ghost predicate Unchanged(initial: Node, current: Node, path: Path) {
    At(initial, path).Some? ==> At(current, path).Some? && SameIdentity(At(initial, path).value, At(current, path).value)
  }

  /** The path lies strictly above one of the outputs. */
  ghost predicate Above(outputs: seq<Path>, path: Path) {
    exists output :: output in outputs && path < output
  }

  /**
   What was there is unchanged, and the paths are exactly the initial ones, the outputs, which
   are bounded single-link regular files, and the directories on the way to them.
   */
  ghost predicate OnlyOutputsAdded(initial: Node, current: Node, outputs: seq<Path>) {
    && (forall path :: Unchanged(initial, current, path))
    && (forall path :: At(current, path).Some? <==> At(initial, path).Some? || path in outputs || Above(outputs, path))
    && OutputsClosed(current, outputs)
  }

  /** No file of the tree has a second link. */
  ghost predicate SingleLinks(tree: Node) {
    forall path :: At(tree, path).Some? && At(tree, path).value.File? ==> At(tree, path).value.links == 1
  }

  /**
   Exact outputs, for any tree that is reinspected: it succeeds if and only if the limits hold,
   only outputs were added and no file has a second link.
   */
  lemma ExactOutputsReinspection(scope: Scope, initial: Node, current: Node)
    requires scope.ExactOutputs? && Acceptable(scope, Walk(initial, []))
    requires initial.Dir? && forall output :: output in scope.paths ==> At(initial, output).None?
    ensures TerminalOk(scope, initial, current) <==>
              && WithinLimits(scope, Walk(current, []))
              && OnlyOutputsAdded(initial, current, scope.paths)
              && SingleLinks(current)
  {
    hide *;
    AcceptableTree(scope, initial);
    if TerminalOk(scope, initial, current) {
      TerminalTree(scope, initial, current);
      ExactOutputsSound(scope, initial, current);
    }
    if OnlyOutputsAdded(initial, current, scope.paths) && SingleLinks(current) && WithinLimits(scope, Walk(current, [])) {
      forall path ensures NodeAllowed(current, path) { OnlyOutputsRegular(initial, current, scope.paths, path); }
      AcceptableTree(scope, current);
      ExactOutputsComplete(scope, initial, current);
    }
  }

  lemma TerminalTree(scope: Scope, initial: Node, current: Node)
    requires TerminalOk(scope, initial, current)
    ensures WithinLimits(scope, Walk(current, [])) && SingleLinks(current) && Closed(scope, current)
    ensures forall path :: NodeAllowed(current, path)
  {
    hide WithinLimits, Acceptable, Walk, Closed;
    AcceptableTree(scope, current);
    forall path | At(current, path).Some? && At(current, path).value.File? ensures At(current, path).value.links == 1 {
      assert NodeAllowed(current, path);
    }
  }

  lemma OnlyOutputsRegular(initial: Node, current: Node, outputs: seq<Path>, path: Path)
    requires OnlyOutputsAdded(initial, current, outputs) && SingleLinks(current)
    ensures NodeAllowed(current, path)
  {
    assert Unchanged(initial, current, path);
    if output :| output in outputs && path < output { AncestorsAreDirs(current, path, output); }
  }

  predicate Overlap(a: Path, b: Path) {
    a <= b || b <= a
  }

  /** `normalizeAllowedOutputPaths`: strictly below the root, unique and pairwise apart. */
  predicate AcceptedOutputs(outputs: seq<Path>) {
    && (forall k :: 0 <= k < |outputs| ==> outputs[k] != [])
    && (forall i, j :: 0 <= i < j < |outputs| ==> !Overlap(outputs[i], outputs[j]))
  }

  /** A list of distinct paths that is not accepted could never be closed: no tree holds all of it as files. */
  lemma OnlyAcceptedOutputsClose(root: Node, outputs: seq<Path>)
    requires root.Dir? && Distinct(outputs) && OutputsClosed(root, outputs)
    ensures AcceptedOutputs(outputs)
  {
    forall k | 0 <= k < |outputs| ensures outputs[k] != [] { assert outputs[k] in outputs; }
    forall i, j | 0 <= i < j < |outputs| ensures !Overlap(outputs[i], outputs[j]) {
      assert outputs[i] in outputs && outputs[j] in outputs;
      if outputs[i] <= outputs[j] { AncestorsAreDirs(root, outputs[i], outputs[j]); }
      if outputs[j] <= outputs[i] { AncestorsAreDirs(root, outputs[j], outputs[i]); }
    }
  }

  predicate NodeAllowed(tree: Node, path: Path) {
    At(tree, path).Some? ==> Regular(At(tree, path).value)
  }

  /** A tree is accepted if and only if the limits hold and it has directories and single-link files only. */
  lemma AcceptableTree(scope: Scope, tree: Node)
    ensures Acceptable(scope, Walk(tree, [])) <==>
              WithinLimits(scope, Walk(tree, [])) && forall path :: NodeAllowed(tree, path)
  {
    hide Walk, WithinLimits, Acceptable;
    var visits := Walk(tree, []);
    AcceptableExactly(scope, visits);
    if forall k :: 0 <= k < |visits| ==> Regular(visits[k].node) {
      forall path ensures NodeAllowed(tree, path) {
        if At(tree, path).Some? {
          WalkIsTheTree(tree, path, At(tree, path).value);
          var k :| 0 <= k < |visits| && visits[k] == Visit(path, At(tree, path).value);
        }
      }
    }
    if forall path :: NodeAllowed(tree, path) {
      forall k | 0 <= k < |visits| ensures Regular(visits[k].node) {
        assert visits[k] in visits;
        WalkIsTheTree(tree, visits[k].path, visits[k].node);
        assert NodeAllowed(tree, visits[k].path);
      }
    }
  }

  lemma ExactOutputsSound(scope: Scope, initial: Node, current: Node)
    requires scope.ExactOutputs? && TerminalOk(scope, initial, current)
    requires forall path :: NodeAllowed(initial, path) && NodeAllowed(current, path)
    requires forall output :: output in scope.paths ==> At(initial, output).None?
    ensures OnlyOutputsAdded(initial, current, scope.paths)
  {
    forall path ensures Unchanged(initial, current, path) {
      assert NodeAllowed(initial, path);
      if At(initial, path).Some? { assert EntryAt(scope, initial, path).Some?; }
    }
    forall path
      ensures At(current, path).Some? <==> At(initial, path).Some? || path in scope.paths || Above(scope.paths, path)
    {
      assert Unchanged(initial, current, path) && NodeAllowed(current, path);
      if At(current, path).Some? && At(initial, path).None? && path !in scope.paths {
        assert EntryAt(scope, current, path).Some? && AllowedNewDirectory(scope, path);
        var output :| output in scope.paths && path <= output;
        assert path != output && path < output;
      }
      if output :| output in scope.paths && path < output { AncestorsAreDirs(current, path, output); }
    }
  }

  lemma ExactOutputsComplete(scope: Scope, initial: Node, current: Node)
    requires scope.ExactOutputs? && Acceptable(scope, Walk(current, [])) && initial.Dir?
    requires forall path :: NodeAllowed(initial, path) && NodeAllowed(current, path)
    requires forall output :: output in scope.paths ==> At(initial, output).None?
    requires OnlyOutputsAdded(initial, current, scope.paths)
    ensures TerminalOk(scope, initial, current)
  {
    forall path | EntryAt(scope, initial, path).Some?
      ensures EntryAt(scope, current, path) == EntryAt(scope, initial, path)
    {
      assert Unchanged(initial, current, path);
    }
    forall path | EntryAt(scope, current, path).Some? && EntryAt(scope, initial, path).None?
      ensures EntryAt(scope, current, path).value.DirEntry? && AllowedNewDirectory(scope, path)
    {
      assert NodeAllowed(initial, path) && At(initial, []).Some?;
      if output :| output in scope.paths && path < output { AncestorsAreDirs(current, path, output); }
    }
  }

  /** Everything outside the subtree is unchanged, and nothing is new there but the directories that lead to it. */
  ghost predicate OutsideUnchanged(initial: Node, current: Node, root: Path) {
    && (forall path :: !(root <= path) ==> Unchanged(initial, current, path))
    && (forall path :: !(root <= path) && At(current, path).Some? && At(initial, path).None? ==>
          path < root && At(current, path).value.Dir?)
  }

  /**
   Fixed state subtree, for any tree that is reinspected: it succeeds if and only if the limits
   hold, only the subtree changed, the subtree is closed and no file has a second link.
   */
  lemma StateSubtreeReinspection(scope: Scope, initial: Node, current: Node)
    requires scope.StateSubtree? && Acceptable(scope, Walk(initial, []))
    requires initial.Dir? && At(initial, scope.root).None?
    ensures TerminalOk(scope, initial, current) <==>
              && WithinLimits(scope, Walk(current, []))
              && OutsideUnchanged(initial, current, scope.root)
              && Closed(scope, current)
              && SingleLinks(current)
  {
    hide *;
    AcceptableTree(scope, initial);
    if TerminalOk(scope, initial, current) {
      TerminalTree(scope, initial, current);
      SubtreeSound(scope, initial, current);
    }
    if && OutsideUnchanged(initial, current, scope.root) && Closed(scope, current) && SingleLinks(current)
       && WithinLimits(scope, Walk(current, [])) {
      forall path ensures NodeAllowed(current, path) {
        if scope.root <= path {
          ClosedSubtreeNode(scope, current, path);
        } else {
          OutsideRegular(initial, current, scope.root, path);
        }
      }
      AcceptableTree(scope, current);
      SubtreeComplete(scope, initial, current);
    }
  }

  lemma OutsideRegular(initial: Node, current: Node, root: Path, path: Path)
    requires OutsideUnchanged(initial, current, root) && SingleLinks(current) && !(root <= path)
    ensures NodeAllowed(current, path)
  {
    assert Unchanged(initial, current, path);
  }

  /** A closed subtree holds directories and bounded files only. */
  lemma ClosedSubtreeNode(scope: Scope, tree: Node, path: Path)
    requires scope.StateSubtree? && scope.root <= path && Closed(scope, tree)
    ensures NodeAllowed(tree, path)
  {
    var root := scope.root;
    if At(tree, path).Some? {
      AncestorsAreDirs(tree, root, path);
      AtBelow(tree, root, path[|root|..]);
      assert root + path[|root|..] == path;
      var visits := Walk(At(tree, root).value, root);
      WalkFinds(At(tree, root).value, root, path[|root|..]);
      var k :| 0 <= k < |visits| && visits[k] == Visit(path, At(tree, path).value);
    }
  }

  lemma {:induction false} AtBelow(tree: Node, root: Path, below: Path)
    requires At(tree, root).Some?
    ensures At(tree, root + below) == At(At(tree, root).value, below)
    decreases |root|
  {
    if root == [] {
      assert root + below == below;
    } else {
      assert (root + below)[1..] == root[1..] + below;
      AtBelow(tree.children[root[0]], root[1..], below);
    }
  }

  lemma SubtreeSound(scope: Scope, initial: Node, current: Node)
    requires scope.StateSubtree? && TerminalOk(scope, initial, current)
    requires forall path :: NodeAllowed(initial, path) && NodeAllowed(current, path)
    ensures OutsideUnchanged(initial, current, scope.root)
  {
    forall path | !(scope.root <= path) ensures Unchanged(initial, current, path) {
      assert NodeAllowed(initial, path);
      if At(initial, path).Some? { assert EntryAt(scope, initial, path).Some?; }
    }
    forall path | !(scope.root <= path) && At(current, path).Some? && At(initial, path).None?
      ensures path < scope.root && At(current, path).value.Dir?
    {
      assert NodeAllowed(current, path);
      assert EntryAt(scope, current, path).Some? && AllowedNewDirectory(scope, path);
    }
  }

  lemma SubtreeComplete(scope: Scope, initial: Node, current: Node)
    requires scope.StateSubtree? && Acceptable(scope, Walk(current, [])) && Closed(scope, current)
    requires initial.Dir? && At(initial, scope.root).None?
    requires forall path :: NodeAllowed(initial, path) && NodeAllowed(current, path)
    requires OutsideUnchanged(initial, current, scope.root)
    ensures TerminalOk(scope, initial, current)
  {
    forall path | EntryAt(scope, initial, path).Some?
      ensures EntryAt(scope, current, path) == EntryAt(scope, initial, path)
    {
      if !(scope.root <= path) { assert Unchanged(initial, current, path); }
    }
    forall path | EntryAt(scope, current, path).Some? && EntryAt(scope, initial, path).None?
      ensures EntryAt(scope, current, path).value.DirEntry? && AllowedNewDirectory(scope, path)
    {
      assert NodeAllowed(initial, path) && At(initial, []).Some?;
    }
  }
}
