/**
 A pipeline without faults gets through: from whatever earlier runs left, it records every name,
 copies every file, activates the copy and publishes the selector.
 */
module MigrationProgress {
  import opened Common
  import opened Migration
  import opened MigrationDesk
  import opened MigrationScript
  import opened MigrationFrame
  import opened MigrationLog

  ghost predicate Reaches(s: State, s': State) { exists steps :: Steps(s, steps, s') }

  lemma {:induction false} StepsAppend(s: State, first: seq<Step>, mid: State, second: seq<Step>, s': State)
    requires Steps(s, first, mid) && Steps(mid, second, s')
    ensures Steps(s, first + second, s')
    decreases |first|
  {
    hide Enabled, Apply;
    if first == [] {
      assert first + second == second;
    } else {
      StepsAppend(Apply(s, first[0]), first[1..], mid, second, s');
      assert (first + second)[0] == first[0];
      assert (first + second)[1..] == first[1..] + second;
    }
  }

  lemma ReachesTrans(s: State, mid: State, s': State)
    requires Reaches(s, mid) && Reaches(mid, s')
    ensures Reaches(s, s')
  {
    hide Steps;
    var first :| Steps(s, first, mid);
    var second :| Steps(mid, second, s');
    StepsAppend(s, first, mid, second, s');
  }

  lemma ReachesSelf(s: State)
    ensures Reaches(s, s)
  {
    assert Steps(s, [], s);
  }

  lemma OneStep(s: State, a: Step)
    requires Enabled(s, a)
    ensures Reaches(s, Apply(s, a))
  {
    hide Enabled, Apply;
    assert Steps(Apply(s, a), [], Apply(s, a));
    assert [a][1..] == [];
    assert Steps(s, [a], Apply(s, a));
  }

  lemma OneRecord(s: State, a: Step)
    requires RecordStep(a) && RecordEnabled(s, a)
    ensures Reaches(s, RecordApply(s, a))
  {
    hide RecordEnabled, RecordApply, Reaches;
    OneStep(s, a);
  }

  lemma OneContent(s: State, a: Step)
    requires ContentStep(a) && ContentEnabled(s, a)
    ensures Reaches(s, ContentApply(s, a))
  {
    hide ContentEnabled, ContentApply, Reaches;
    OneStep(s, a);
  }

  // ----- What a stretch of recording leaves alone -----

  ghost predicate Kept(s: State, s': State) {
    Local(s, s') && s'.handed == s.handed && s'.copies == s.copies && s'.manifests == s.manifests
    && Mine(s').condition == Mine(s).condition
  }

  lemma KeptTrans(s: State, mid: State, s': State)
    requires Kept(s, mid) && Kept(mid, s')
    ensures Kept(s, s')
  {
    var attempts := s.saved[s.run.value.plan.op].attempts;
    var last := |attempts| - 1;
    assert attempts[last := Mine(mid)][last := Mine(s')] == attempts[last := Mine(s')];
  }

  lemma KeptSelf(s: State)
    requires InRun(s)
    ensures Kept(s, s)
  {
    SaveSame(s);
  }

  ghost predicate Working(s: State) { Ready(s) && s.run.value.at == Idle && s.run.value.storage in s.storages }

  function TreeIn(s: State): Tree
    requires s.run.Some? && s.run.value.storage in s.storages
  {
    s.storages[s.run.value.storage]
  }

  /** One more directory: intend, create, confirm. */
  lemma AddDirectory(s: State, d: Path, id: Inode) returns (s': State)
    requires Working(s) && RecordEnabled(s, WantDirectory(d)) && IsDirectory(TreeIn(s), Parent(d))
    ensures Reaches(s, s') && Working(s') && Kept(s, s') && s'.run.value.todo == s.run.value.todo
    ensures Mine(s').entries == Mine(s).entries[d := Entry(Some(id), true)]
    ensures d !in TreeIn(s) && TreeIn(s') == TreeIn(s)[d := Dir(id)]
  {
    hide Desk, Work, Reaches;
    var s1 := RecordApply(s, WantDirectory(d));
    WantDirectoryKeeps(s, d);
    OneRecord(s, WantDirectory(d));
    assert d !in TreeIn(s) by { WantedIsAbsent(s1); }
    var s2 := RecordApply(s1, MakeDirectory(id));
    MakesKeep(s1, MakeDirectory(id));
    OneRecord(s1, MakeDirectory(id));
    s' := RecordApply(s2, RecordDirectory);
    RecordDirectoryKeeps(s2);
    OneRecord(s2, RecordDirectory);
    ReachesTrans(s, s1, s2);
    ReachesTrans(s, s2, s');
    assert Mine(s').entries == Mine(s).entries[d := Entry(Some(id), true)];
    ThreeRecords(s, WantDirectory(d), MakeDirectory(id), RecordDirectory);
  }

  lemma WantedIsAbsent(s: State)
    requires Ready(s) && (s.run.value.at.DirWanted? || s.run.value.at.FileWanted?)
    ensures s.run.value.storage in s.storages && s.run.value.at.path !in s.storages[s.run.value.storage]
    ensures s.run.value.at.path != []
  {}

  lemma ThreeRecords(s: State, a: Step, b: Step, c: Step)
    requires InRun(s) && Mine(s).storage == s.run.value.storage
    requires RecordStep(a) && RecordEnabled(s, a) && !a.RecordRoot?
    requires RecordStep(b) && RecordEnabled(RecordApply(s, a), b) && !b.RecordRoot?
    requires RecordStep(c) && RecordEnabled(RecordApply(RecordApply(s, a), b), c) && !c.RecordRoot?
    ensures Kept(s, RecordApply(RecordApply(RecordApply(s, a), b), c))
  {
    hide RecordEnabled, RecordApply, Kept;
    var s1 := RecordApply(s, a);
    var s2 := RecordApply(s1, b);
    RecordKept(s, a);
    assert InRun(s1) && Mine(s1).storage == s1.run.value.storage by { KeptRun(s, s1); }
    RecordKept(s1, b);
    assert InRun(s2) && Mine(s2).storage == s2.run.value.storage by { KeptRun(s1, s2); }
    RecordKept(s2, c);
    KeptTrans(s, s1, s2);
    KeptTrans(s, s2, RecordApply(s2, c));
  }

  lemma KeptRun(s: State, s': State)
    requires Kept(s, s') && Mine(s).storage == s.run.value.storage
    ensures InRun(s') && Mine(s').storage == s'.run.value.storage
  {}

  lemma RecordKept(s: State, a: Step)
    requires InRun(s) && Mine(s).storage == s.run.value.storage && RecordStep(a) && RecordEnabled(s, a) && !a.RecordRoot?
    ensures Kept(s, RecordApply(s, a))
  {
    RecordIsLocal(s, a);
    RecordOutside(s, a);
    ConditionKept(s, a);
    hide RecordEnabled, RecordApply;
  }

  lemma ConditionKept(s: State, a: Step)
    requires RecordStep(a) && RecordEnabled(s, a) && !a.RecordRoot?
    ensures InRun(RecordApply(s, a)) && Mine(RecordApply(s, a)).condition == Mine(s).condition
  {
    hide IsDirectory, TreeOf;
  }

  /** One more file, left empty. */
  lemma AddFile(s: State, id: Inode) returns (s': State)
    requires Working(s) && RecordEnabled(s, WantFile) && s.run.value.todo[0].path !in Mine(s).entries
    requires IsDirectory(TreeIn(s), Parent(s.run.value.todo[0].path))
    ensures Reaches(s, s') && Working(s') && Kept(s, s') && s'.run.value.todo == s.run.value.todo[1..]
    ensures var p := s.run.value.todo[0].path;
      && Mine(s').entries == Mine(s).entries[p := Entry(Some(id), false)]
      && p !in TreeIn(s) && TreeIn(s') == TreeIn(s)[p := File(id, EMPTY)]
  {
    hide Desk, Work, Reaches;
    var p := s.run.value.todo[0].path;
    var s1 := RecordApply(s, WantFile);
    WantFileKeeps(s);
    OneRecord(s, WantFile);
    assert p !in TreeIn(s) by { WantedIsAbsent(s1); }
    var s2 := RecordApply(s1, MakeFile(id));
    MakesKeep(s1, MakeFile(id));
    OneRecord(s1, MakeFile(id));
    s' := RecordApply(s2, RecordFile);
    RecordFileKeeps(s2);
    OneRecord(s2, RecordFile);
    ReachesTrans(s, s1, s2);
    ReachesTrans(s, s2, s');
    assert Mine(s').entries == Mine(s).entries[p := Entry(Some(id), false)];
    ThreeRecords(s, WantFile, MakeFile(id), RecordFile);
  }

  // ----- Inodes -----

  /** The file system's choice of an identity for every path. */
  type Supply = Path -> Inode

  ghost predicate Numbered(tree: Tree, inodes: Supply) { forall p :: p in tree ==> tree[p].id == inodes(p) }

  lemma NumberedGrows(tree: Tree, inodes: Supply, p: Path, node: Node)
    requires Numbered(tree, inodes) && node.id == inodes(p)
    ensures Numbered(tree[p := node], inodes)
  {}

  // ----- Items -----

  ghost predicate Grown(e: Entries, e': Entries) { forall p :: p in e ==> p in e' && e'[p] == e[p] }

  lemma GrownTrans(e: Entries, mid: Entries, e': Entries)
    requires Grown(e, mid) && Grown(mid, e')
    ensures Grown(e, e')
  {}

  ghost predicate AllAbove(e: Entries, d: Path) { forall k :: 0 <= k <= |d| ==> d[..k] in e }

  lemma AllAboveGrows(e: Entries, e': Entries, d: Path)
    requires AllAbove(e, d) && Grown(e, e')
    ensures AllAbove(e', d)
  {}

  lemma AllAboveStep(e: Entries, d: Path)
    requires d != [] && AllAbove(e, Parent(d)) && d in e
    ensures AllAbove(e, d)
  {
    forall k | 0 <= k <= |d| ensures d[..k] in e {
      if k < |d| { assert d[..k] == Parent(d)[..k]; } else { assert d[..k] == d; }
    }
  }

  lemma NewDirectoryNoFile(tree: Tree, d: Path, id: Inode)
    requires d !in tree
    ensures TargetFiles(tree[d := Dir(id)]) == TargetFiles(tree)
  {}

  lemma NewFile(tree: Tree, p: Path, id: Inode, content: Content)
    requires p !in tree && p != []
    ensures TargetFiles(tree[p := File(id, content)]) ==
      TargetFiles(tree) + (if Category(p[0]) then {(p, content)} else {})
  {
    var grown := tree[p := File(id, content)];
    forall f | f in TargetFiles(tree) ensures f in TargetFiles(grown) { assert f.0 in grown; }
    if Category(p[0]) { assert p in grown && (p, content) in TargetFiles(grown); }
    forall f | f in TargetFiles(grown) && f.0 != p ensures f in TargetFiles(tree) { assert f.0 in tree; }
  }

  lemma RecordedIsThere(s: State, p: Path)
    requires Working(s) && p in Mine(s).entries
    ensures p in TreeIn(s) && (Auxiliary(p) || (Mine(s).entries[p].directory <==> TreeIn(s)[p].Dir?))
  {
    hide Work, Rooted, PlainEntries;
    NodeAt(TreeIn(s), Mine(s).entries, p);
  }

  lemma AboveIsDirectory(s: State, q: Path)
    requires Working(s) && s.run.value.todo != [] && q in Mine(s).entries && q <= DirOf(s.run.value.todo[0])
    ensures IsDirectory(TreeIn(s), q)
  {
    hide Desk, Suffix, Script, Origins, Walked;
    var r := s.run.value;
    PrefixIsDirectory(r.plan.facts.files, r.todo, Mine(s).entries, q);
    RecordedIsThere(s, q);
    if q != [] {
      HeadOnce(r.plan.facts.files, r.todo);
      DirectoryName(r.plan.facts.files, r.todo[0], q);
    }
  }

  /** Records every missing directory down to `d`, outermost first. */
  lemma {:induction false} EnsureDirectory(s: State, d: Path, inodes: Supply) returns (s': State)
    requires Working(s) && s.run.value.todo != [] && d <= DirOf(s.run.value.todo[0]) && Numbered(TreeIn(s), inodes)
    ensures Reaches(s, s') && Working(s') && Kept(s, s') && s'.run.value.todo == s.run.value.todo
    ensures Grown(Mine(s).entries, Mine(s').entries) && AllAbove(Mine(s').entries, d)
    ensures TargetFiles(TreeIn(s')) == TargetFiles(TreeIn(s)) && Numbered(TreeIn(s'), inodes)
    decreases |d|
  {
    hide Reaches, Work, Desk, Kept, TargetFiles, Grown, AllAbove, Numbered;
    if d == [] {
      s' := s;
      ReachesSelf(s);
      KeptSelf(s);
      RootIsRecorded(s);
    } else {
      var mid := EnsureDirectory(s, Parent(d), inodes);
      if d in Mine(mid).entries {
        s' := mid;
      } else {
        ParentRecorded(mid, d);
        AboveIsDirectory(mid, Parent(d));
        s' := AddDirectory(mid, d, inodes(d));
        ReachesTrans(s, mid, s');
        KeptTrans(s, mid, s');
        NewDirectoryNoFile(TreeIn(mid), d, inodes(d));
        NumberedGrows(TreeIn(mid), inodes, d, Dir(inodes(d)));
        GrownByOne(Mine(mid).entries, d, Entry(Some(inodes(d)), true));
        GrownTrans(Mine(s).entries, Mine(mid).entries, Mine(s').entries);
        AllAboveGrows(Mine(mid).entries, Mine(s').entries, Parent(d));
      }
      AllAboveStep(Mine(s').entries, d);
    }
  }

  lemma GrownByOne(e: Entries, p: Path, entry: Entry)
    requires p !in e
    ensures Grown(e, e[p := entry])
  {}

  lemma RootIsRecorded(s: State)
    requires Working(s)
    ensures AllAbove(Mine(s).entries, []) && Grown(Mine(s).entries, Mine(s).entries)
  {}

  lemma ParentRecorded(s: State, d: Path)
    requires InRun(s) && d != [] && AllAbove(Mine(s).entries, Parent(d))
    ensures Parent(d) in Mine(s).entries
  {
    assert Parent(d)[..|Parent(d)|] == Parent(d);
  }

  ghost predicate Taken(e: Entries, item: Item) { item.path in e && AllAbove(e, DirOf(item)) }

  lemma TakenGrows(e: Entries, e': Entries, item: Item)
    requires Taken(e, item) && Grown(e, e')
    ensures Taken(e', item)
  {
    hide AllAbove;
    AllAboveGrows(e, e', DirOf(item));
  }

  function Adds(item: Item, content: Content): set<(Path, Content)> {
    if item.FileItem? && item.path != [] && Category(item.path[0]) then {(item.path, content)} else {}
  }

  /** What taking the next item of the script achieves. */
  ghost predicate Took(s: State, s': State, item: Item, content: Content, inodes: Supply) {
    && Reaches(s, s') && Working(s) && Working(s') && Kept(s, s')
    && s.run.value.todo != [] && item == s.run.value.todo[0] && s'.run.value.todo == s.run.value.todo[1..]
    && Grown(Mine(s).entries, Mine(s').entries) && Taken(Mine(s').entries, item)
    && TargetFiles(TreeIn(s')) == TargetFiles(TreeIn(s)) + Adds(item, content)
    && Numbered(TreeIn(s'), inodes)
  }

  lemma TakeDirectory(s: State, inodes: Supply) returns (s': State)
    requires Working(s) && s.run.value.todo != [] && s.run.value.todo[0].DirItem? && Numbered(TreeIn(s), inodes)
    ensures Took(s, s', s.run.value.todo[0], EMPTY, inodes)
  {
    hide Reaches, Work, Desk, Kept, TargetFiles, Grown, Numbered;
    var item := s.run.value.todo[0];
    var mid := EnsureDirectory(s, item.path, inodes);
    assert item.path in Mine(mid).entries by { assert item.path[..|item.path|] == item.path; }
    hide AllAbove;
    s' := RecordApply(mid, DirectoryDone);
    DirectoryDoneKeeps(mid);
    OneRecord(mid, DirectoryDone);
    RecordKept(mid, DirectoryDone);
    ReachesTrans(s, mid, s');
    KeptTrans(s, mid, s');
  }

  /** Before activation every file may be written, afterwards the manifest only. */
  predicate MayFill(s: State, p: Path)
    requires s.run.Some?
  {
    s.run.value.storage in s.copies && s.copies[s.run.value.storage].Activated? ==> p == MANIFEST
  }

  lemma WriteKept(s: State, p: Path, content: Content) returns (s': State)
    requires Working(s) && p in Mine(s).entries && p in TreeIn(s) && TreeIn(s)[p].File? && MayFill(s, p)
    ensures Reaches(s, s') && Working(s') && Kept(s, s') && s'.run == s.run
    ensures Mine(s').entries == Mine(s).entries
    ensures TreeIn(s') == TreeIn(s)[p := TreeIn(s)[p].(content := content)]
  {
    hide Reaches, Work, Desk;
    var a := WriteFile(p, content);
    s' := ContentApply(s, a);
    OneContent(s, a);
    ContentIsLocal(s, a);
    ContentReady(s, a);
  }

  lemma TakeFile(s: State, content: Content, inodes: Supply) returns (s': State)
    requires Working(s) && s.run.value.todo != [] && s.run.value.todo[0].FileItem? && Numbered(TreeIn(s), inodes) && Leased(s)
    requires s.run.value.todo[0].path == MANIFEST && !Lists(s.run.value.plan.facts.files, MANIFEST) ==>
      Harmless(s.run.value.plan.facts.files) && s.run.value.storage in s.copies && s.copies[s.run.value.storage].Activated?
    requires MayFill(s, s.run.value.todo[0].path)
    ensures Took(s, s', s.run.value.todo[0], content, inodes)
  {
    hide Reaches, Desk, TargetFiles, Grown, AllAbove, Harmless, Walked, Suffix, Script, Origins, Numbered;
    var r := s.run.value;
    var item := r.todo[0];
    var p := item.path;
    HeadOnce(r.plan.facts.files, r.todo);
    ItemShape(r.plan.facts.files, item);
    var mid := EnsureDirectory(s, Parent(p), inodes);
    ParentRecorded(mid, p);
    AboveIsDirectory(mid, Parent(p));
    if Lists(r.plan.facts.files, MANIFEST) { ListedIsHarmless(r.plan.facts.files); }
    HeadUnreserved(r.plan.facts.files, r.todo, Mine(mid).entries);
    hide Work, Kept;
    WantIsEnabled(s, mid);
    s' := FillNext(mid, content, inodes);
    ReachesTrans(s, mid, s');
    KeptTrans(s, mid, s');
    GrownByOne(Mine(mid).entries, p, Entry(Some(inodes(p)), false));
    GrownTrans(Mine(s).entries, Mine(mid).entries, Mine(s').entries);
    AllAboveGrows(Mine(mid).entries, Mine(s').entries, Parent(p));
  }

  /** Under its directory the file is reserved and written. */
  lemma FillNext(s: State, content: Content, inodes: Supply) returns (s': State)
    requires Working(s) && RecordEnabled(s, WantFile) && s.run.value.todo[0].path !in Mine(s).entries
    requires IsDirectory(TreeIn(s), Parent(s.run.value.todo[0].path)) && MayFill(s, s.run.value.todo[0].path)
    requires Numbered(TreeIn(s), inodes)
    ensures Reaches(s, s') && Working(s') && Kept(s, s') && s'.run.value.todo == s.run.value.todo[1..]
    ensures var p := s.run.value.todo[0].path;
      && Mine(s').entries == Mine(s).entries[p := Entry(Some(inodes(p)), false)]
      && TargetFiles(TreeIn(s')) == TargetFiles(TreeIn(s)) + Adds(FileItem(p), content)
      && Numbered(TreeIn(s'), inodes)
  {
    hide Reaches, Desk, Work, TargetFiles, Numbered;
    var p := s.run.value.todo[0].path;
    var empty := AddFile(s, inodes(p));
    KeptPlan(s, empty);
    s' := WriteKept(empty, p, content);
    assert TreeIn(s') == TreeIn(s)[p := File(inodes(p), content)];
    NewFile(TreeIn(s), p, inodes(p), content);
    NumberedGrows(TreeIn(s), inodes, p, File(inodes(p), content));
    ReachesTrans(s, empty, s');
    KeptTrans(s, empty, s');
  }

  lemma WantIsEnabled(s: State, mid: State)
    requires Working(s) && Working(mid) && Kept(s, mid) && Leased(s) && mid.run.value.todo == s.run.value.todo != []
    requires s.run.value.todo[0].FileItem? && s.run.value.todo[0].path != []
    requires Parent(s.run.value.todo[0].path) in Mine(mid).entries
    requires s.run.value.todo[0].path == MANIFEST && !Lists(s.run.value.plan.facts.files, MANIFEST) ==>
      s.run.value.storage in s.copies && s.copies[s.run.value.storage].Activated?
    ensures RecordEnabled(mid, WantFile)
  {
    hide Desk, Work;
  }

  // ----- All items -----

  ghost predicate CopiedUpTo(s: State, k: nat, inodes: Supply) {
    && Working(s) && Leased(s) && Numbered(TreeIn(s), inodes) && k <= 5 + |s.run.value.plan.facts.files|
    && s.run.value.todo == Script(s.run.value.plan.facts.files)[k..] && s.run.value.storage !in s.copies
    && TargetFiles(TreeIn(s)) == FileSet(s.run.value.plan.facts.files[..(if k < 5 then 0 else k - 5)])
  }

  lemma ScriptAt(files: Files, k: nat)
    requires k < 5 + |files|
    ensures k < |Script(files)|
    ensures k < 4 ==> Script(files)[k].DirItem?
    ensures k == 4 ==> Script(files)[k] == FileItem(DATABASE)
    ensures 5 <= k ==> Script(files)[k] == FileItem(files[k - 5].0)
    ensures 5 <= k ==> FileSet(files[..k - 4]) == FileSet(files[..k - 5]) + {files[k - 5]}
  {
    if 5 <= k { assert files[..k - 4] == files[..k - 5] + [files[k - 5]]; }
  }

  lemma CopyNext(s: State, k: nat, inodes: Supply) returns (s': State)
    requires CopiedUpTo(s, k, inodes) && k < 5 + |s.run.value.plan.facts.files|
    ensures Took(s, s', Script(s.run.value.plan.facts.files)[k], if k < 5 then EMPTY else s.run.value.plan.facts.files[k - 5].1, inodes)
    ensures CopiedUpTo(s', k + 1, inodes)
  {
    hide Reaches, Work, Desk, Kept, TargetFiles, Grown, Taken, FileSet, Script, Numbered;
    var files := s.run.value.plan.facts.files;
    ScriptAt(files, k);
    var todo := s.run.value.todo;
    assert todo[0] == Script(files)[k];
    assert todo[1..] == Script(files)[k + 1..];
    if k < 4 {
      s' := TakeDirectory(s, inodes);
    } else if k == 4 {
      s' := TakeFile(s, EMPTY, inodes);
    } else {
      assert Lists(files, files[k - 5].0);
      s' := TakeFile(s, files[k - 5].1, inodes);
    }
    KeptPlan(s, s');
    WorkingWalked(s);
    AddsExactly(files, k);
  }

  lemma KeptPlan(s: State, s': State)
    requires Kept(s, s')
    ensures s'.run.Some? && s.run.Some? && s'.run.value.plan == s.run.value.plan && s'.run.value.storage == s.run.value.storage
    ensures s'.copies == s.copies
    ensures Leased(s') <==> Leased(s)
  {}

  /** A listed file with the manifest's name has nothing below it. */
  lemma ListedIsHarmless(files: Files)
    requires Walked(files) && Lists(files, MANIFEST)
    ensures Harmless(files)
  {
    NothingInsideFile(files, MANIFEST);
  }

  lemma AddsExactly(files: Files, k: nat)
    requires Walked(files) && k < 5 + |files|
    ensures FileSet(files[..(if k < 5 then 0 else k - 5)]) +
              Adds(Script(files)[k], if k < 5 then EMPTY else files[k - 5].1)
         == FileSet(files[..(if k < 4 then 0 else k - 4)])
  {
    ScriptAt(files, k);
  }

  lemma WorkingWalked(s: State)
    requires Working(s)
    ensures Walked(s.run.value.plan.facts.files)
  {
    hide Desk, Walked;
  }

  ghost predicate AllTaken(s: State, k: nat, n: nat)
    requires InRun(s)
  {
    forall i :: k <= i < n && i < |Script(s.run.value.plan.facts.files)| ==>
      Taken(Mine(s).entries, Script(s.run.value.plan.facts.files)[i])
  }

  /** From the item at `k` to the last file: every name is recorded and every file copied. */
  lemma {:induction false} CopyAll(s: State, k: nat, inodes: Supply) returns (s': State)
    requires CopiedUpTo(s, k, inodes)
    ensures CopiedUpTo(s', 5 + |s.run.value.plan.facts.files|, inodes) && Reaches(s, s') && Kept(s, s')
    ensures Grown(Mine(s).entries, Mine(s').entries) && AllTaken(s', k, 5 + |s.run.value.plan.facts.files|)
    decreases 5 + |s.run.value.plan.facts.files| - k
  {
    hide Reaches, Work, Desk, Kept, TargetFiles, Grown, Taken, FileSet, Script, Numbered;
    var files := s.run.value.plan.facts.files;
    if k == 5 + |files| {
      s' := s;
      ReachesSelf(s);
      KeptSelf(s);
      RootIsRecorded(s);
    } else {
      var next := CopyNext(s, k, inodes);
      KeptPlan(s, next);
      s' := CopyAll(next, k + 1, inodes);
      KeptPlan(next, s');
      ReachesTrans(s, next, s');
      KeptTrans(s, next, s');
      GrownTrans(Mine(s).entries, Mine(next).entries, Mine(s').entries);
      ScriptAt(files, k);
      TakenGrows(Mine(next).entries, Mine(s').entries, Script(files)[k]);
    }
  }

  // ----- Start of the locked part -----

  /** After the attempt is allocated: its root is made and recorded. */
  lemma OpenRoot(s: State, inodes: Supply) returns (s': State)
    requires Ready(s) && Leased(s) && s.run.value.storage !in s.copies && s.run.value.at == RootWanted && s.run.value.todo == Script(s.run.value.plan.facts.files)
    ensures Reaches(s, s') && Outside(s, s') && s'.copies == s.copies && s'.manifests == s.manifests
    ensures CopiedUpTo(s', 0, inodes) && Mine(s').condition == Preparing
    ensures Local(s, s')
  {
    hide Reaches, Work;
    var s1 := RecordApply(s, MakeRoot(inodes(ROOT)));
    MakesKeep(s, MakeRoot(inodes(ROOT)));
    OneRecord(s, MakeRoot(inodes(ROOT)));
    s' := RecordApply(s1, RecordRoot);
    RecordRootKeeps(s1);
    OneRecord(s1, RecordRoot);
    ReachesTrans(s, s1, s');
    RecordIsLocal(s, MakeRoot(inodes(ROOT)));
    RecordIsLocal(s1, RecordRoot);
    LocalTrans(s, s1, s');
    assert Script(s.run.value.plan.facts.files)[0..] == Script(s.run.value.plan.facts.files);
    assert s.run.value.plan.facts.files[..0] == [];
    assert TargetFiles(TreeIn(s')) == {};
  }

  lemma LocalTrans(s: State, mid: State, s': State)
    requires Local(s, mid) && Local(mid, s')
    ensures Local(s, s')
  {
    var attempts := s.saved[s.run.value.plan.op].attempts;
    var last := |attempts| - 1;
    assert attempts[last := Mine(mid)][last := Mine(s')] == attempts[last := Mine(s')];
  }
}
