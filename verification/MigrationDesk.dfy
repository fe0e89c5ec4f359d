/** One attempt at its desk: journal entries against the tree, at every point of the recording protocol. */
module MigrationDesk {
  import opened Common
  import opened Migration

  type Entries = map<Path, Entry>

  /** Every node but the root lies in a directory of the tree. */
  ghost predicate Rooted(tree: Tree) {
    && ROOT in tree && tree[ROOT].Dir?
    && (forall p :: p in tree && p != [] ==> IsDirectory(tree, Parent(p)))
  }

  ghost predicate Settled(entries: Entries) { forall p :: p in entries ==> entries[p].identity.Some? }

  ghost predicate SettledBut(entries: Entries, pending: Path) {
    forall p :: p in entries && p != pending ==> entries[p].identity.Some?
  }

  ghost predicate PlainEntries(entries: Entries) {
    forall p, k :: p in entries && 0 <= k < |p| ==> Plain(p[k])
  }

  predicate Pending(at: Point) { at.DirWanted? || at.DirMade? || at.FileWanted? || at.FileMade? }

  /** What holds at each point; whatever it is, the tree passes the next run's check. */
  ghost predicate Desk(tree: Option<Tree>, entries: Entries, at: Point) {
    if at == RootWanted then tree.None? && entries == map[]
    else if at == RootMade then
      tree.Some? && tree.value.Keys == {ROOT} && tree.value[ROOT].Dir? && entries == map[]
    else
      && tree.Some? && ROOT in entries && Rooted(tree.value) && PlainEntries(entries) && CheckAttempt(tree, entries)
      && (if Pending(at) then
            && at.path in entries && at.path != [] && !Auxiliary(at.path) && SettledBut(entries, at.path)
            && entries[at.path] == Entry(None, at.DirWanted? || at.DirMade?)
            && (at.path in tree.value <==> at.DirMade? || at.FileMade?)
          else Settled(entries))
  }

  lemma DeskPasses(tree: Option<Tree>, entries: Entries, at: Point)
    requires Desk(tree, entries, at)
    ensures CheckAttempt(tree, entries) && PlainEntries(entries)
    ensures tree.None? <==> at == RootWanted
  {}

  lemma PendingEntry(tree: Option<Tree>, entries: Entries, at: Point)
    requires Desk(tree, entries, at) && Pending(at)
    ensures at.path in entries && entries[at.path] == Entry(None, at.DirWanted? || at.DirMade?)
  {}

  lemma NodeAt(tree: Tree, entries: Entries, p: Path)
    requires CheckAttempt(Some(tree), entries) && entries != map[]
    ensures p in tree ==> NodeExpected(tree, entries, p)
  {}

  lemma UnrecordedIsAbsent(tree: Tree, entries: Entries, p: Path)
    requires CheckAttempt(Some(tree), entries) && entries != map[] && p !in entries && !Auxiliary(p)
    ensures p !in tree
  {
    NodeAt(tree, entries, p);
  }

  lemma RootRecorded(id: Inode, tree: Tree)
    requires tree.Keys == {ROOT} && tree[ROOT] == Dir(id)
    ensures Desk(Some(tree), map[ROOT := Entry(Some(id), true)], Idle)
  {
    assert forall p :: p in tree ==> p == ROOT;
  }

  /** Intent is journalled first: nothing of that name exists yet. */
  lemma Intend(tree: Tree, entries: Entries, p: Path, directory: bool)
    requires Desk(Some(tree), entries, Idle) && p !in entries && p != [] && !Auxiliary(p)
    requires forall k :: 0 <= k < |p| ==> Plain(p[k])
    ensures Desk(Some(tree), entries[p := Entry(None, directory)], if directory then DirWanted(p) else FileWanted(p))
  {
    var wider := entries[p := Entry(None, directory)];
    UnrecordedIsAbsent(tree, entries, p);
    forall q | q in tree ensures NodeExpected(tree, wider, q) { assert NodeExpected(tree, entries, q); }
  }

  /** The node appears empty, under a parent that is already confirmed. */
  lemma Create(tree: Tree, entries: Entries, p: Path, node: Node, at: Point)
    requires Desk(Some(tree), entries, at) && (at == DirWanted(p) || at == FileWanted(p))
    requires if at.DirWanted? then node.Dir? else node.File? && node.content == EMPTY
    requires IsDirectory(tree, Parent(p))
    ensures Desk(Some(tree[p := node]), entries, if at.DirWanted? then DirMade(p) else FileMade(p))
  {
    var grown := tree[p := node];
    assert forall c :: c in tree ==> !ChildOf(c, p);
    forall q | q in grown ensures NodeExpected(grown, entries, q) {
      if q != p { assert NodeExpected(tree, entries, q); }
    }
  }

  /** Confirming the identity settles the entry. */
  lemma Confirm(tree: Tree, entries: Entries, p: Path, at: Point)
    requires Desk(Some(tree), entries, at) && (at == DirMade(p) || at == FileMade(p))
    ensures Desk(Some(tree), entries[p := Entry(Some(tree[p].id), at.DirMade?)], Idle)
  {
    var sure := entries[p := Entry(Some(tree[p].id), at.DirMade?)];
    forall q | q in tree ensures NodeExpected(tree, sure, q) { assert NodeExpected(tree, entries, q); }
  }

  lemma Fill(tree: Tree, entries: Entries, p: Path, content: Content)
    requires Desk(Some(tree), entries, Idle) && p in tree && tree[p].File?
    ensures Desk(Some(tree[p := tree[p].(content := content)]), entries, Idle)
  {
    var filled := tree[p := tree[p].(content := content)];
    forall q | q in filled ensures NodeExpected(filled, entries, q) { assert NodeExpected(tree, entries, q); }
  }

  /** SQLite's own files are never directories of the tree. */
  lemma AuxiliaryIsLeaf(tree: Tree, entries: Entries, p: Path)
    requires Rooted(tree) && CheckAttempt(Some(tree), entries) && entries != map[] && Auxiliary(p) && p !in entries
    ensures forall c :: c in tree ==> !ChildOf(c, p)
  {
    NodeAt(tree, entries, p);
  }

  lemma AuxiliaryRooted(tree: Tree, p: Path, id: Inode)
    requires Rooted(tree) && Auxiliary(p) && (forall c :: c in tree ==> !ChildOf(c, p))
    ensures Rooted(tree[p := File(id, EMPTY)])
  {
    assert Parent(p) == ROOT;
  }

  lemma AuxiliaryPasses(tree: Tree, entries: Entries, p: Path, id: Inode)
    requires CheckAttempt(Some(tree), entries) && Settled(entries) && Auxiliary(p) && DATABASE in entries && p !in entries
    ensures CheckAttempt(Some(tree[p := File(id, EMPTY)]), entries)
  {
    var grown := tree[p := File(id, EMPTY)];
    forall q | q in grown ensures NodeExpected(grown, entries, q) {
      if q != p { NodeAt(tree, entries, q); }
    }
  }

  lemma AuxiliaryAppears(tree: Tree, entries: Entries, p: Path, id: Inode)
    requires Desk(Some(tree), entries, Idle) && Auxiliary(p) && DATABASE in entries && p !in entries
    ensures Desk(Some(tree[p := File(id, EMPTY)]), entries, Idle)
  {
    hide PlainEntries, CheckAttempt, Rooted, Settled, Auxiliary;
    AuxiliaryIsLeaf(tree, entries, p);
    AuxiliaryRooted(tree, p, id);
    AuxiliaryPasses(tree, entries, p, id);
  }

  lemma AuxiliaryVanishes(tree: Tree, entries: Entries, p: Path)
    requires Desk(Some(tree), entries, Idle) && Auxiliary(p) && p !in entries
    ensures Desk(Some(tree - {p}), entries, Idle)
  {
    var shrunk := tree - {p};
    NodeAt(tree, entries, p);
    forall q | q in shrunk && q != [] ensures IsDirectory(shrunk, Parent(q)) { assert IsDirectory(tree, Parent(q)); }
    forall q | q in shrunk ensures NodeExpected(shrunk, entries, q) { assert NodeExpected(tree, entries, q); }
  }
}
