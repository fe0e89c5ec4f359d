/** What the checks of a later run catch: every change to a tree or to what a selector names that no pipeline makes. */
module MigrationChecks {
  import opened Common
  import opened Migration

  /** Files the attempt's check allows for besides the recorded ones. */
  predicate MayAppear(entries: map<Path, Entry>, p: Path) { Auxiliary(p) && DATABASE in entries }

  predicate Confirmed(entries: map<Path, Entry>, p: Path) { p in entries && entries[p].identity.Some? }

  /** An accepted tree is refused once something unrecorded has appeared in it. */
  lemma AdditionIsCaught(tree: Tree, entries: map<Path, Entry>, p: Path, node: Node)
    requires entries != map[] && p !in entries && !(MayAppear(entries, p) && node.File?)
    ensures !CheckAttempt(Some(tree[p := node]), entries)
  {
    assert p in tree[p := node];
  }

  /** Or a confirmed node has gone, was replaced by another one, or changed its kind. */
  lemma ReplacementIsCaught(tree: Tree, entries: map<Path, Entry>, p: Path, node: Node)
    requires Confirmed(entries, p) && !MayAppear(entries, p)
    requires node.id != entries[p].identity.value || (entries[p].directory <==> node.File?)
    ensures !CheckAttempt(Some(tree[p := node]), entries) && !CheckAttempt(Some(tree - {p}), entries)
  {
    assert p in tree[p := node];
    assert p !in tree - {p};
  }

  /** Or a file has contents, or a directory an entry, before it was confirmed. */
  lemma EarlyContentIsCaught(tree: Tree, entries: map<Path, Entry>, p: Path, node: Node, child: Path)
    requires p in entries && entries[p].identity.None? && !MayAppear(entries, p)
    requires if node.File? then node.content != EMPTY else child in tree && child != p && ChildOf(child, p)
    ensures !CheckAttempt(Some(tree[p := node]), entries)
  {
    assert p in tree[p := node];
    if node.Dir? { assert child in tree[p := node]; }
  }

  /** Before anything is recorded, only no tree or a bare root is accepted; and a recorded attempt must have its tree. */
  lemma BareRootOnly(tree: Tree, entries: map<Path, Entry>)
    ensures CheckAttempt(Some(tree), map[]) <==> tree.Keys == {ROOT}
    ensures CheckAttempt(None, entries) <==> entries == map[]
  {}

  /** A verified selector stops verifying once its root or database is another node, its copy is not activated, its
      manifest is another one, or the source's fence or facts are. */
  lemma VerificationCatches(s: State, sel: Selector, id: Inode, manifest: Manifest, copy: Copy, fence: Option<Op>, facts: Facts)
    requires Verifies(s, sel)
    ensures var tree := s.storages[sel.storage];
      && (id != sel.manifest.rootId ==> !Verifies(s.(storages := s.storages[sel.storage := tree[ROOT := Dir(id)]]), sel))
      && (id != sel.manifest.databaseId ==>
            !Verifies(s.(storages := s.storages[sel.storage := tree[DATABASE := File(id, EMPTY)]]), sel))
    ensures copy != Activated(sel.op) ==> !Verifies(s.(copies := s.copies[sel.storage := copy]), sel)
    ensures manifest != sel.manifest ==> !Verifies(s.(manifests := s.manifests[sel.storage := manifest]), sel)
    ensures fence != Some(sel.op) ==> !Verifies(s.(fence := fence), sel)
    ensures facts != s.facts ==> !Verifies(s.(facts := facts), sel)
    ensures !Verifies(s.(copies := s.copies - {sel.storage}), sel) && !Verifies(s.(manifests := s.manifests - {sel.storage}), sel)
  {}
}
