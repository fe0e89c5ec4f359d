/**
 Storage migration: fence the source, copy it under a write-ahead journal, activate the copy,
 publish the selector. Every durable effect is a step of its own, so a crash can fall between
 any two; the journal file is replaced atomically. The source database lock makes the part after
 the fence exclusive, while several calls may stand before it with a selector they read earlier. The
 public entry lets a call go on only under the supervisor's current lease for its plan; the lease is
 checked on entry, before the fence, before the lock, before each file and before publication.
 */
module Migration {
  import opened Common

  type Op = int
  type Storage = int
  type Inode = int
  type Content = int

  /** A path component; the names with a meaning of their own are constructors. */
  datatype Name = Keys | Secrets | Temp | Recovery | Database | DatabaseJournal | DatabaseWal | DatabaseShm
                | ManifestFile | Named(text: string)
  type Path = seq<Name>

  const ROOT: Path := []
  const DATABASE: Path := [Database]
  const MANIFEST: Path := [Recovery, ManifestFile]
  const EMPTY: Content := 0

  predicate Auxiliary(p: Path) { p == [DatabaseJournal] || p == [DatabaseWal] || p == [DatabaseShm] }

  predicate Category(n: Name) { n == Keys || n == Secrets || n == Temp || n == Recovery }

  predicate Plain(n: Name) {
    n.Named? ==> n.text != "" && n.text != "." && n.text != ".." && '/' !in n.text && '\\' !in n.text
  }

  datatype Node = Dir(id: Inode) | File(id: Inode, content: Content)
  type Tree = map<Path, Node>

  function Parent(p: Path): Path
    requires p != []
  {
    p[..|p| - 1]
  }

  predicate ChildOf(c: Path, p: Path) { c != [] && Parent(c) == p }

  /** What is hashed into a plan about the source: database row facts and the walked files. */
  datatype Facts = Facts(identity: int, generation: int, revision: int, inventory: int, files: seq<(Path, Content)>)

  /** `seen` is the fence the plan's snapshot contained. */
  datatype Plan = Plan(op: Op, facts: Facts, seen: Option<Op>)

  datatype Entry = Entry(identity: Option<Inode>, directory: bool)
  datatype Condition = Allocated | Preparing | Abandoned | Prepared
  datatype Attempt = Attempt(storage: Storage, condition: Condition, entries: map<Path, Entry>)
  datatype Journal = Journal(op: Op, facts: Facts, attempts: seq<Attempt>)

  datatype Copy = FencedCopy(op: Op) | Activated(op: Op)
  datatype Manifest = Manifest(op: Op, facts: Facts, rootId: Inode, databaseId: Inode)
  datatype Selector = Selector(op: Op, storage: Storage, manifest: Manifest)

  datatype Item = DirItem(path: Path) | FileItem(path: Path)

  /** Where the locked part of a pipeline stands. */
  datatype Point =
    | RootWanted | RootMade
    | Idle
    | DirWanted(path: Path) | DirMade(path: Path) | FileWanted(path: Path) | FileMade(path: Path)
    | Finished

  /** The supervisor's offline authority, bound to one plan; `assert_current` compares both. */
  datatype Lease = Lease(serial: int, plan: Plan)

  datatype Run = Run(plan: Plan, serial: int, storage: Storage, at: Point, todo: seq<Item>)
  /** A call that has read "no selector" under a lease and does not hold the lock yet. */
  datatype Waiting = Waiting(id: int, serial: int, plan: Plan, fenced: bool)
  datatype Root = Legacy | Private(storage: Storage)

  datatype State = State(
    facts: Facts,
    fence: Option<Op>,
    saved: map<Op, Journal>,
    storages: map<Storage, Tree>,
    copies: map<Storage, Copy>,
    manifests: map<Storage, Manifest>,
    selector: Option<Selector>,
    waiting: set<Waiting>,
    run: Option<Run>,
    published: set<Storage>,
    handed: set<Root>,
    lease: Option<Lease>,
    served: set<int>,
    entered: multiset<int>)

  // ----- What a walk of the source yields, and the work it makes -----

  function DirOf(item: Item): Path {
    if item.DirItem? || item.path == [] then item.path else Parent(item.path)
  }

  predicate Below(p: Path, top: Path) { top <= p && p != top }

  /** Distinct files under the four directories, none of which is a directory of another. */
  ghost predicate Walked(files: seq<(Path, Content)>) {
    && (forall i :: 0 <= i < |files| ==>
          |files[i].0| >= 2 && Category(files[i].0[0]) && forall k :: 0 <= k < |files[i].0| ==> Plain(files[i].0[k]))
    && (forall i, j :: 0 <= i < |files| && 0 <= j < |files| && i != j ==> !(files[i].0 <= files[j].0))
  }

  predicate Lists(files: seq<(Path, Content)>, p: Path) { exists i :: 0 <= i < |files| && files[i].0 == p }

  function FileItems(files: seq<(Path, Content)>): seq<Item> {
    seq(|files|, i requires 0 <= i < |files| => FileItem(files[i].0))
  }

  const CATEGORIES: seq<Item> := [DirItem([Keys]), DirItem([Secrets]), DirItem([Temp]), DirItem([Recovery])]

  function Script(files: seq<(Path, Content)>): seq<Item> {
    CATEGORIES + [FileItem(DATABASE)] + FileItems(files) + (if Lists(files, MANIFEST) then [] else [FileItem(MANIFEST)])
  }

  /** `_files`: the files of a tree under the four directories. */
  function TargetFiles(tree: Tree): set<(Path, Content)> {
    set p | p in tree && tree[p].File? && p != [] && Category(p[0]) :: (p, tree[p].content)
  }

  function FileSet(files: seq<(Path, Content)>): set<(Path, Content)> { set f | f in files }

  // ----- Checks on what an earlier run left -----

  /** `_load_journal` accepts the saved journal for this plan. */
  ghost predicate Loads(j: Journal, plan: Plan) {
    && j.op == plan.op && j.facts == plan.facts && |j.attempts| <= 16
    && (forall i, k :: 0 <= i < k < |j.attempts| ==> j.attempts[i].storage != j.attempts[k].storage)
    && (forall i, p, k :: 0 <= i < |j.attempts| && p in j.attempts[i].entries && 0 <= k < |p| ==> Plain(p[k]))
  }

  /** A present name is an allowed auxiliary file, or recorded; unconfirmed entries are still empty. */
  predicate NodeExpected(tree: Tree, entries: map<Path, Entry>, p: Path)
    requires p in tree
  {
    || (Auxiliary(p) && DATABASE in entries && tree[p].File?)
    || (&& p in entries
        && (entries[p].directory <==> tree[p].Dir?)
        && (entries[p].identity.Some? ==> entries[p].identity.value == tree[p].id)
        && (entries[p].identity.None? ==>
              if tree[p].Dir? then forall c :: c in tree ==> !ChildOf(c, p) else tree[p].content == EMPTY))
  }

  /** `_check_attempt` accepts: the tree is exactly what the journal lets the attempt have left. */
  predicate CheckAttempt(tree: Option<Tree>, entries: map<Path, Entry>) {
    if tree.None? then entries == map[]
    else if entries == map[] then tree.value.Keys == {ROOT}
    else
      && (forall p :: p in tree.value ==> NodeExpected(tree.value, entries, p))
      && (forall p :: p in entries && entries[p].identity.Some? ==> p in tree.value)
  }

  function TreeOf(s: State, storage: Storage): Option<Tree> {
    if storage in s.storages then Some(s.storages[storage]) else None
  }

  ghost predicate AttemptsPass(s: State, j: Journal) {
    forall i :: 0 <= i < |j.attempts| ==> CheckAttempt(TreeOf(s, j.attempts[i].storage), j.attempts[i].entries)
  }

  function Recorded(s: State, op: Op, facts: Facts): Journal {
    if op in s.saved then s.saved[op] else Journal(op, facts, [])
  }

  /** `verify_committed_storage`, as far as the migration's own writes decide it. */
  predicate Verifies(s: State, sel: Selector) {
    && sel.storage in s.manifests && s.manifests[sel.storage] == sel.manifest
    && sel.manifest.op == sel.op && s.fence == Some(sel.op) && sel.manifest.facts == s.facts
    && sel.storage in s.copies && s.copies[sel.storage] == Activated(sel.op)
    && sel.storage in s.storages
    && ROOT in s.storages[sel.storage] && s.storages[sel.storage][ROOT].id == sel.manifest.rootId
    && DATABASE in s.storages[sel.storage] && s.storages[sel.storage][DATABASE].id == sel.manifest.databaseId
  }

  /** The root `resolve_private_storage` chooses. */
  function Chosen(s: State): Root { if s.selector.Some? then Private(s.selector.value.storage) else Legacy }

  predicate Unfenced(s: State, r: Root) {
    match r
    case Legacy => s.fence.None?
    case Private(st) => st in s.copies && s.copies[st].Activated?
  }

  // ----- Steps -----

  datatype Step =
    // The host
    | HostWrites(facts: Facts)
    | Resolve
    | HostFile(storage: Storage, path: Path, node: Option<Node>)
    // The supervisor
    | AcquireLease(serial: int, plan: Plan)
    | EndLease
    // A pipeline before its locked part
    | ReadSelector(id: int)
    | FenceSource(w: Waiting)
    | OpenAttempt(w: Waiting, storage: Storage)
    | Withdraw(w: Waiting)
    | Crash
    // Write-ahead recording
    | MakeRoot(id: Inode)
    | RecordRoot
    | WantDirectory(path: Path)
    | MakeDirectory(id: Inode)
    | RecordDirectory
    | DirectoryDone
    | WantFile
    | MakeFile(id: Inode)
    | RecordFile
    // Contents
    | WriteFile(path: Path, content: Content)
    | AuxiliaryFile(path: Path, inode: Option<Inode>)
    | CopyDatabase
    | Activate
    | WriteManifest
    | Prepare
    | Publish

  predicate HostStep(a: Step) { a.HostWrites? || a.Resolve? || a.HostFile? }

  predicate GateStep(a: Step) {
    a.AcquireLease? || a.EndLease? || a.ReadSelector? || a.FenceSource? || a.OpenAttempt? || a.Withdraw? || a.Crash?
  }

  /** `assert_current`: the call's lease is still the supervisor's, for this plan. */
  predicate Current(s: State, serial: int, plan: Plan) { s.lease == Some(Lease(serial, plan)) }

  predicate Leased(s: State) { s.run.Some? && Current(s, s.run.value.serial, s.run.value.plan) }

  predicate RecordStep(a: Step) {
    || a.MakeRoot? || a.RecordRoot? || a.WantDirectory? || a.MakeDirectory? || a.RecordDirectory?
    || a.DirectoryDone? || a.WantFile? || a.MakeFile? || a.RecordFile?
  }

  predicate ContentStep(a: Step) { !HostStep(a) && !GateStep(a) && !RecordStep(a) }

  predicate InRun(s: State) {
    && s.run.Some? && s.run.value.plan.op in s.saved
    && s.saved[s.run.value.plan.op].attempts != []
  }

  /** The attempt the running pipeline works on: the last of its journal. */
  function Mine(s: State): Attempt
    requires InRun(s)
  {
    var attempts := s.saved[s.run.value.plan.op].attempts; attempts[|attempts| - 1]
  }

  /** Replaces the running attempt and saves the journal. */
  function Save(s: State, a: Attempt): State
    requires InRun(s)
  {
    var op := s.run.value.plan.op;
    var j := s.saved[op];
    s.(saved := s.saved[op := j.(attempts := j.attempts[|j.attempts| - 1 := a])])
  }

  function SaveEntry(s: State, p: Path, e: Entry): State
    requires InRun(s)
  {
    Save(s, Mine(s).(entries := Mine(s).entries[p := e]))
  }

  function At(s: State, point: Point): State
    requires s.run.Some?
  {
    s.(run := Some(s.run.value.(at := point)))
  }

  function Advance(s: State): State
    requires s.run.Some? && s.run.value.todo != []
  {
    s.(run := Some(s.run.value.(at := Idle, todo := s.run.value.todo[1..])))
  }

  function PutNode(s: State, storage: Storage, p: Path, node: Node): State
    requires storage in s.storages
  {
    s.(storages := s.storages[storage := s.storages[storage][p := node]])
  }

  function DropNode(s: State, storage: Storage, p: Path): State
    requires storage in s.storages
  {
    s.(storages := s.storages[storage := s.storages[storage] - {p}])
  }

  predicate IsDirectory(tree: Tree, p: Path) { p in tree && tree[p].Dir? }

  predicate HostEnabled(s: State, a: Step)
    requires HostStep(a)
  {
    match a
    case HostWrites(facts) => s.fence.None?
    case Resolve => s.selector.None? || Verifies(s, s.selector.value)
    case HostFile(storage, path, node) =>
      storage in s.published && storage in s.storages && path != ROOT && path != DATABASE && path != MANIFEST
  }

  function HostApply(s: State, a: Step): State
    requires HostStep(a) && HostEnabled(s, a)
  {
    match a
    case HostWrites(facts) => s.(facts := facts)
    case Resolve => s.(handed := s.handed + {Chosen(s)})
    case HostFile(storage, path, node) =>
      if node.Some? then PutNode(s, storage, path, node.value) else DropNode(s, storage, path)
  }

  ghost predicate GateEnabled(s: State, a: Step)
    requires GateStep(a)
  {
    match a
    case AcquireLease(serial, plan) => s.lease.None? && serial !in s.served && Walked(plan.facts.files)
    case EndLease => s.lease.Some?
    case ReadSelector(id) => s.lease.Some? && s.selector.None? && forall w :: w in s.waiting ==> w.id != id
    case FenceSource(w) =>
      && w in s.waiting && !w.fenced && Current(s, w.serial, w.plan) && s.run.None?
      && w.plan.facts == s.facts && w.plan.seen == s.fence && (s.fence.Some? ==> s.fence == Some(w.plan.op))
    case OpenAttempt(w, storage) =>
      && w in s.waiting && w.fenced && Current(s, w.serial, w.plan) && s.run.None? && storage !in s.storages
      && var j := Recorded(s, w.plan.op, w.plan.facts);
         Loads(j, w.plan) && AttemptsPass(s, j) && |j.attempts| < 16
         && (forall i :: 0 <= i < |j.attempts| ==> j.attempts[i].storage != storage)
    case Withdraw(w) => w in s.waiting
    case Crash => s.run.Some?
  }

  function Abandon(attempts: seq<Attempt>): seq<Attempt> {
    seq(|attempts|, i requires 0 <= i < |attempts| => attempts[i].(condition := Abandoned))
  }

  ghost function GateApply(s: State, a: Step): State
    requires GateStep(a) && GateEnabled(s, a)
  {
    match a
    case AcquireLease(serial, plan) => s.(lease := Some(Lease(serial, plan)), served := s.served + {serial})
    case EndLease => s.(lease := None)
    case ReadSelector(id) =>
      s.(waiting := s.waiting + {Waiting(id, s.lease.value.serial, s.lease.value.plan, false)},
         entered := s.entered + multiset{s.lease.value.serial})
    case FenceSource(w) =>
      s.(fence := Some(w.plan.op), waiting := s.waiting - {w} + {w.(fenced := true)})
    case OpenAttempt(w, storage) =>
      var j := Recorded(s, w.plan.op, w.plan.facts);
      s.(saved := s.saved[w.plan.op := j.(attempts := Abandon(j.attempts) + [Attempt(storage, Allocated, map[])])],
         waiting := s.waiting - {w},
         run := Some(Run(w.plan, w.serial, storage, RootWanted, Script(w.plan.facts.files))))
    case Withdraw(w) => s.(waiting := s.waiting - {w})
    case Crash => s.(run := None)
  }

  predicate RecordEnabled(s: State, a: Step)
    requires RecordStep(a)
  {
    && InRun(s)
    && var r := s.run.value;
       var tree := TreeOf(s, r.storage);
       match a
       case MakeRoot(id) => r.at == RootWanted && tree.None?
       case RecordRoot => r.at == RootMade && tree.Some? && ROOT in tree.value
       case WantDirectory(d) =>
         && r.at == Idle && r.todo != [] && d != [] && d <= DirOf(r.todo[0])
         && d !in Mine(s).entries && Parent(d) in Mine(s).entries
       case MakeDirectory(id) =>
         r.at.DirWanted? && tree.Some? && r.at.path != [] && r.at.path !in tree.value && IsDirectory(tree.value, Parent(r.at.path))
       case RecordDirectory => r.at.DirMade? && tree.Some? && r.at.path in tree.value
       case DirectoryDone => r.at == Idle && r.todo != [] && r.todo[0].DirItem? && r.todo[0].path in Mine(s).entries
       case WantFile =>
         && r.at == Idle && r.todo != [] && r.todo[0].FileItem? && r.todo[0].path != []
         && Parent(r.todo[0].path) in Mine(s).entries
         && (Lists(r.plan.facts.files, r.todo[0].path) ==> Leased(s))
         && (r.todo[0].path == MANIFEST && !Lists(r.plan.facts.files, MANIFEST) ==>
               r.storage in s.copies && s.copies[r.storage].Activated?)
       case MakeFile(id) =>
         r.at.FileWanted? && tree.Some? && r.at.path != [] && r.at.path !in tree.value && IsDirectory(tree.value, Parent(r.at.path))
       case RecordFile => r.at.FileMade? && tree.Some? && r.at.path in tree.value && r.todo != []
  }

  function RecordApply(s: State, a: Step): State
    requires RecordStep(a) && RecordEnabled(s, a)
  {
    var r := s.run.value;
    match a
    case MakeRoot(id) => At(s.(storages := s.storages[r.storage := map[ROOT := Dir(id)]]), RootMade)
    case RecordRoot =>
      At(Save(s, Mine(s).(condition := Preparing,
                          entries := map[ROOT := Entry(Some(s.storages[r.storage][ROOT].id), true)])), Idle)
    case WantDirectory(d) => At(SaveEntry(s, d, Entry(None, true)), DirWanted(d))
    case MakeDirectory(id) => At(PutNode(s, r.storage, r.at.path, Dir(id)), DirMade(r.at.path))
    case RecordDirectory =>
      At(SaveEntry(s, r.at.path, Entry(Some(s.storages[r.storage][r.at.path].id), true)), Idle)
    case DirectoryDone => Advance(s)
    case WantFile => At(SaveEntry(s, r.todo[0].path, Entry(None, false)), FileWanted(r.todo[0].path))
    case MakeFile(id) => At(PutNode(s, r.storage, r.at.path, File(id, EMPTY)), FileMade(r.at.path))
    case RecordFile =>
      Advance(SaveEntry(s, r.at.path, Entry(Some(s.storages[r.storage][r.at.path].id), false)))
  }

  predicate ContentEnabled(s: State, a: Step)
    requires ContentStep(a)
  {
    && InRun(s) && s.run.value.storage in s.storages && s.run.value.at == Idle
    && var r := s.run.value;
       var tree := s.storages[r.storage];
       match a
       case WriteFile(p, content) =>
         && p in Mine(s).entries && p in tree && tree[p].File?
         && (r.storage in s.copies && s.copies[r.storage].Activated? ==> p == MANIFEST)
       case AuxiliaryFile(p, inode) => Auxiliary(p) && DATABASE in Mine(s).entries
       case CopyDatabase => DATABASE in Mine(s).entries && r.storage !in s.copies
       case Activate =>
         && r.storage in s.copies && s.copies[r.storage] == FencedCopy(r.plan.op)
         && r.todo == [FileItem(MANIFEST)] && TargetFiles(tree) == FileSet(r.plan.facts.files)
       case WriteManifest =>
         && r.todo == [] && MANIFEST in Mine(s).entries && !Lists(r.plan.facts.files, MANIFEST)
         && MANIFEST in tree && tree[MANIFEST].File? && ROOT in tree && DATABASE in tree
         && r.storage in s.copies && s.copies[r.storage] == Activated(r.plan.op) && r.storage !in s.manifests
       case Prepare => r.storage in s.manifests && Mine(s).condition == Preparing
       case Publish => Mine(s).condition == Prepared && r.storage in s.manifests && Leased(s)
  }

  function ContentApply(s: State, a: Step): State
    requires ContentStep(a) && ContentEnabled(s, a)
  {
    var r := s.run.value;
    var tree := s.storages[r.storage];
    match a
    case WriteFile(p, content) => PutNode(s, r.storage, p, tree[p].(content := content))
    case AuxiliaryFile(p, inode) =>
      if inode.Some? then PutNode(s, r.storage, p, File(inode.value, EMPTY)) else DropNode(s, r.storage, p)
    case CopyDatabase => s.(copies := s.copies[r.storage := FencedCopy(r.plan.op)])
    case Activate => s.(copies := s.copies[r.storage := Activated(r.plan.op)])
    case WriteManifest =>
      s.(manifests := s.manifests[r.storage := Manifest(r.plan.op, r.plan.facts, tree[ROOT].id, tree[DATABASE].id)])
    case Prepare => Save(s, Mine(s).(condition := Prepared))
    case Publish =>
      At(s.(selector := Some(Selector(r.plan.op, r.storage, s.manifests[r.storage])),
            published := s.published + {r.storage}), Finished)
  }

  ghost predicate Enabled(s: State, a: Step) {
    if HostStep(a) then HostEnabled(s, a)
    else if GateStep(a) then GateEnabled(s, a)
    else if RecordStep(a) then RecordEnabled(s, a)
    else ContentEnabled(s, a)
  }

  ghost function Apply(s: State, a: Step): State
    requires Enabled(s, a)
  {
    if HostStep(a) then HostApply(s, a)
    else if GateStep(a) then GateApply(s, a)
    else if RecordStep(a) then RecordApply(s, a)
    else ContentApply(s, a)
  }

  ghost predicate Steps(s: State, steps: seq<Step>, s': State)
    decreases |steps|
  {
    if steps == [] then s == s'
    else Enabled(s, steps[0]) && Steps(Apply(s, steps[0]), steps[1..], s')
  }

  /** An installation that has never been migrated. */
  predicate Init(s: State) {
    && s.fence.None? && s.saved == map[] && s.storages == map[] && s.copies == map[] && s.manifests == map[]
    && s.selector.None? && s.waiting == {} && s.run.None? && s.published == {} && s.handed == {}
    && s.lease.None? && s.served == {} && s.entered == multiset{}
  }
}
