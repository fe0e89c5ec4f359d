/**
 What a copy contains. From its activation until the host may write to it, a storage holds exactly the
 files of the fenced source, each with its content, besides the manifest.
 */
module MigrationContents {
  import opened Migration
  import opened MigrationFrame
  import opened MigrationAuthority

  predicate InCategory(p: Path) {
    p != [] && (p[0] == Keys || p[0] == Secrets || p[0] == Temp || p[0] == Recovery)
  }

  /** Path by path: every file under the four directories is one of `files` with that content, and each of those is there. */
  ghost predicate HoldsFiles(tree: Tree, files: seq<(Path, Content)>) {
    && (forall p :: p in tree && tree[p].File? && InCategory(p) && p != MANIFEST ==> (p, tree[p].content) in files)
    && (forall f :: f in files ==> InCategory(f.0))
    && (forall f :: f in files && f.0 != MANIFEST ==> f.0 in tree && tree[f.0].File? && tree[f.0].content == f.1)
  }

  predicate Active(s: State, st: Storage) { st in s.copies && s.copies[st].Activated? }

  /** What is left to do after activation is the manifest. */
  predicate ManifestLeft(r: Run) {
    && (r.todo == [] || r.todo == [FileItem(MANIFEST)])
    && r.at != RootWanted && r.at != RootMade
    && (r.at.FileWanted? || r.at.FileMade? ==> r.at.path == MANIFEST)
  }

  ghost predicate ContentInv(s: State) {
    && (forall st :: st in s.copies ==> st in s.storages)
    && (forall st :: Active(s, st) && st !in s.published ==> st in s.storages && HoldsFiles(s.storages[st], s.facts.files))
    && (s.run.Some? && Active(s, s.run.value.storage) ==> ManifestLeft(s.run.value))
  }

  lemma HostContents(s: State, a: Step)
    requires AuthorityInv(s) && ContentInv(s) && HostStep(a) && HostEnabled(s, a)
    ensures ContentInv(HostApply(s, a))
  {
    hide Verifies, HoldsFiles, ManifestsOk, SelectorOk;
  }

  lemma GateContents(s: State, a: Step)
    requires AuthorityInv(s) && ContentInv(s) && GateStep(a) && GateEnabled(s, a)
    ensures ContentInv(GateApply(s, a))
  {
    hide Loads, AttemptsPass, Recorded, Abandon, Script, Walked, HoldsFiles, ManifestsOk;
  }

  /** A new empty directory, or the manifest's file, changes nothing of what the tree holds. */
  lemma HoldsAfterNode(tree: Tree, p: Path, node: Node, files: seq<(Path, Content)>)
    requires HoldsFiles(tree, files) && (node.Dir? ==> p !in tree) && (node.File? ==> p == MANIFEST || !InCategory(p))
    ensures HoldsFiles(tree[p := node], files)
  {}

  lemma HoldsWithout(tree: Tree, p: Path, files: seq<(Path, Content)>)
    requires HoldsFiles(tree, files) && !InCategory(p)
    ensures HoldsFiles(tree - {p}, files)
  {}

  /** Recording touches the running attempt's tree only: a root, a new directory, or the file it wanted. */
  lemma RecordTrees(s: State, a: Step)
    requires RecordStep(a) && RecordEnabled(s, a)
    ensures var s' := RecordApply(s, a); var r := s.run.value;
      if a.MakeRoot? then r.at == RootWanted && s'.storages == s.storages[r.storage := map[ROOT := Dir(a.id)]]
      else if a.MakeDirectory? then
        && r.storage in s.storages && r.at.DirWanted? && r.at.path !in s.storages[r.storage]
        && s'.storages == s.storages[r.storage := s.storages[r.storage][r.at.path := Dir(a.id)]]
      else if a.MakeFile? then
        && r.storage in s.storages && r.at.FileWanted?
        && s'.storages == s.storages[r.storage := s.storages[r.storage][r.at.path := File(a.id, EMPTY)]]
      else s'.storages == s.storages
  {
    hide IsDirectory, Lists;
  }

  lemma RecordLeavesManifest(s: State, a: Step)
    requires RecordStep(a) && RecordEnabled(s, a) && ManifestLeft(s.run.value)
    ensures ManifestLeft(RecordApply(s, a).run.value)
  {
    hide IsDirectory, Lists;
  }

  lemma RecordContents(s: State, a: Step)
    requires ContentInv(s) && RecordStep(a) && RecordEnabled(s, a)
    ensures ContentInv(RecordApply(s, a))
  {
    hide HoldsFiles, RecordEnabled, RecordApply;
    RecordOutside(s, a);
    var r := s.run.value;
    RecordTrees(s, a);
    if Active(s, r.storage) {
      RecordLeavesManifest(s, a);
      if r.storage !in s.published {
        if a.MakeDirectory? { HoldsAfterNode(s.storages[r.storage], r.at.path, Dir(a.id), s.facts.files); }
        if a.MakeFile? { HoldsAfterNode(s.storages[r.storage], r.at.path, File(a.id, EMPTY), s.facts.files); }
      }
    }
  }

  /** The comparison before activation is by path and content. */
  lemma CheckedHolds(tree: Tree, files: seq<(Path, Content)>)
    requires TargetFiles(tree) == FileSet(files)
    ensures HoldsFiles(tree, files)
  {
    forall p | p in tree && tree[p].File? && InCategory(p) ensures (p, tree[p].content) in files {
      assert (p, tree[p].content) in TargetFiles(tree);
      assert (p, tree[p].content) in FileSet(files);
    }
    forall f | f in files ensures InCategory(f.0) && f.0 in tree && tree[f.0].File? && tree[f.0].content == f.1 {
      assert f in FileSet(files);
      assert f in TargetFiles(tree);
    }
  }

  lemma FilesContents(s: State, a: Step)
    requires AuthorityInv(s) && ContentInv(s) && (a.WriteFile? || a.AuxiliaryFile?) && ContentEnabled(s, a)
    ensures ContentInv(ContentApply(s, a))
  {
    hide HoldsFiles, ManifestsOk, Lists, AuthorityInv, TargetFiles, FileSet;
    var r := s.run.value;
    if Active(s, r.storage) && r.storage !in s.published {
      var tree := s.storages[r.storage];
      if a.WriteFile? { HoldsAfterNode(tree, a.path, tree[a.path].(content := a.content), s.facts.files); }
      else if a.inode.Some? { HoldsAfterNode(tree, a.path, File(a.inode.value, EMPTY), s.facts.files); }
      else { HoldsWithout(tree, a.path, s.facts.files); }
    }
  }

  lemma CopyContents(s: State, a: Step)
    requires AuthorityInv(s) && ContentInv(s) && ContentStep(a) && !a.WriteFile? && !a.AuxiliaryFile? && ContentEnabled(s, a)
    ensures ContentInv(ContentApply(s, a))
  {
    if a.Activate? { CheckedHolds(s.storages[s.run.value.storage], s.run.value.plan.facts.files); }
    hide HoldsFiles, ManifestsOk, Lists, TargetFiles, FileSet, Verifies;
  }

  lemma ContentsStep(s: State, a: Step)
    requires AuthorityInv(s) && ContentInv(s) && Enabled(s, a)
    ensures ContentInv(Apply(s, a))
  {
    hide AuthorityInv, ContentInv, HostEnabled, GateEnabled, RecordEnabled, ContentEnabled,
      HostApply, GateApply, RecordApply, ContentApply;
    if HostStep(a) { HostContents(s, a); }
    else if GateStep(a) { GateContents(s, a); }
    else if RecordStep(a) { RecordContents(s, a); }
    else if a.WriteFile? || a.AuxiliaryFile? { FilesContents(s, a); }
    else { CopyContents(s, a); }
  }

  lemma {:induction false} ContentsHold(s: State, steps: seq<Step>, s': State)
    requires AuthorityInv(s) && ContentInv(s) && Steps(s, steps, s')
    ensures AuthorityInv(s') && ContentInv(s')
    decreases |steps|
  {
    hide AuthorityInv, ContentInv, Enabled, Apply;
    if steps != [] {
      AuthorityStep(s, steps[0]);
      ContentsStep(s, steps[0]);
      ContentsHold(Apply(s, steps[0]), steps[1..], s');
    }
  }

  /** In every run an activated storage that is not published yet holds exactly the fenced source's files. */
  lemma ActivatedHoldsSource(s0: State, steps: seq<Step>, s: State, st: Storage)
    requires Init(s0) && Steps(s0, steps, s) && Active(s, st) && st !in s.published
    ensures s.fence.Some? && st in s.storages && HoldsFiles(s.storages[st], s.facts.files)
  {
    hide Steps, HoldsFiles;
    InitialAuthority(s0);
    ContentsHold(s0, steps, s);
  }

  /** So the storage a publication selects holds them at that moment: no file is lost, changed or added. */
  lemma PublishedHoldsSource(s0: State, steps: seq<Step>, s: State)
    requires Init(s0) && Steps(s0, steps, s) && Enabled(s, Publish)
    ensures var s' := Apply(s, Publish);
      && s'.selector.Some? && s'.selector.value.storage in s'.storages
      && HoldsFiles(s'.storages[s'.selector.value.storage], s'.facts.files)
  {
    hide Steps, HoldsFiles;
    InitialAuthority(s0);
    ContentsHold(s0, steps, s);
    assert ManifestOk(s, s.run.value.storage);
  }
}
