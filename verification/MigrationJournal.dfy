/**
 The journal as a record: it accounts for every tree ever made, forgets no attempt, keeps earlier attempts as they
 were but for marking them abandoned, and records a path only below recorded ones.
 */
module MigrationJournal {
  import opened Common
  import opened Migration
  import opened MigrationLog
  import opened MigrationAuthority
  import opened MigrationContents

  ghost predicate FromRoot(entries: map<Path, Entry>) {
    forall p :: p in entries && p != [] ==> Parent(p) in entries
  }

  ghost predicate AttemptShape(j: Journal) {
    && (forall i :: 0 <= i < |j.attempts| ==> FromRoot(j.attempts[i].entries))
    && (forall i :: 0 <= i < |j.attempts| - 1 ==> j.attempts[i].condition == Abandoned)
  }

  ghost predicate ListedIn(j: Journal, st: Storage) { exists i :: 0 <= i < |j.attempts| && j.attempts[i].storage == st }

  ghost predicate Accounted(s: State, st: Storage) { exists op :: op in s.saved && ListedIn(s.saved[op], st) }

  /** What a run is about to make or record is journalled already. */
  predicate Announced(at: Point, entries: map<Path, Entry>) {
    at.DirWanted? || at.DirMade? || at.FileWanted? || at.FileMade? ==> at.path in entries
  }

  ghost predicate RecordInv(s: State) {
    && (forall op :: op in s.saved ==> AttemptShape(s.saved[op]))
    && (s.run.Some? ==> InRun(s) && Mine(s).storage == s.run.value.storage && Announced(s.run.value.at, Mine(s).entries))
    && (forall st :: st in s.storages ==> Accounted(s, st))
  }

  /** Attempts are only added, under the storage they had; only the last one changes its entries. */
  ghost predicate JournalGrows(j: Journal, j': Journal) {
    && |j.attempts| <= |j'.attempts|
    && (forall i :: 0 <= i < |j.attempts| ==> j'.attempts[i].storage == j.attempts[i].storage)
    && (forall i :: 0 <= i < |j.attempts| - 1 ==> j'.attempts[i].entries == j.attempts[i].entries)
  }

  ghost predicate Grows(s: State, s': State) {
    forall op :: op in s.saved ==> op in s'.saved && JournalGrows(s.saved[op], s'.saved[op])
  }

  lemma GrowsAccounts(s: State, s': State, st: Storage)
    requires Grows(s, s') && Accounted(s, st)
    ensures Accounted(s', st)
  {
    var op :| op in s.saved && ListedIn(s.saved[op], st);
    var i :| 0 <= i < |s.saved[op].attempts| && s.saved[op].attempts[i].storage == st;
    assert s'.saved[op].attempts[i].storage == st;
    assert ListedIn(s'.saved[op], st);
  }

  lemma LocalRecords(s: State, s': State)
    requires RecordInv(s) && Local(s, s') && Mine(s).storage == s.run.value.storage
    requires FromRoot(Mine(s').entries) && Announced(s'.run.value.at, Mine(s').entries)
    ensures RecordInv(s') && Grows(s, s')
  {
    var op := s.run.value.plan.op;
    assert AttemptShape(s.saved[op]);
    assert AttemptShape(s'.saved[op]);
    forall st | st in s'.storages ensures Accounted(s', st) {
      if st == s.run.value.storage {
        assert s'.saved[op].attempts[|s'.saved[op].attempts| - 1].storage == st;
        assert ListedIn(s'.saved[op], st);
      } else {
        assert TreeOf(s', st) == TreeOf(s, st);
        GrowsAccounts(s, s', st);
      }
    }
  }

  lemma RunningAttempt(s: State)
    requires RecordInv(s) && s.run.Some?
    ensures FromRoot(Mine(s).entries)
  {
    assert AttemptShape(s.saved[s.run.value.plan.op]);
  }

  lemma RecordEntries(s: State, a: Step)
    requires InRun(s) && RecordStep(a) && RecordEnabled(s, a) && FromRoot(Mine(s).entries)
    requires Announced(s.run.value.at, Mine(s).entries) && InRun(RecordApply(s, a))
    ensures FromRoot(Mine(RecordApply(s, a)).entries)
    ensures Announced(RecordApply(s, a).run.value.at, Mine(RecordApply(s, a)).entries)
  {
    hide IsDirectory, Lists;
  }

  lemma RecordRecords(s: State, a: Step)
    requires RecordInv(s) && RecordStep(a) && RecordEnabled(s, a)
    ensures RecordInv(RecordApply(s, a)) && Grows(s, RecordApply(s, a))
  {
    RunningAttempt(s);
    hide RecordEnabled, RecordApply, FromRoot, Announced, Accounted, AttemptShape, Local, Grows;
    RecordIsLocal(s, a);
    assert InRun(RecordApply(s, a)) by { LocalRuns(s, RecordApply(s, a)); }
    RecordEntries(s, a);
    LocalRecords(s, RecordApply(s, a));
  }

  lemma LocalRuns(s: State, s': State)
    requires Local(s, s')
    ensures InRun(s) && InRun(s') && s'.run.value.storage == s.run.value.storage
  {}

  lemma ContentEntries(s: State, a: Step)
    requires InRun(s) && ContentStep(a) && ContentEnabled(s, a) && !a.Publish? && InRun(ContentApply(s, a))
    ensures Mine(ContentApply(s, a)).entries == Mine(s).entries && ContentApply(s, a).run.value.at == s.run.value.at
  {
    hide TargetFiles, FileSet, Lists;
  }

  lemma ContentRecords(s: State, a: Step)
    requires RecordInv(s) && ContentStep(a) && ContentEnabled(s, a) && !a.Publish?
    ensures RecordInv(ContentApply(s, a)) && Grows(s, ContentApply(s, a))
  {
    assert InRun(s) by { hide TargetFiles, FileSet, Lists; }
    RunningAttempt(s);
    hide ContentEnabled, ContentApply, FromRoot, Announced, Accounted, AttemptShape, Local, Grows;
    ContentIsLocal(s, a);
    assert InRun(ContentApply(s, a)) by { LocalRuns(s, ContentApply(s, a)); }
    ContentEntries(s, a);
    LocalRecords(s, ContentApply(s, a));
  }

  lemma PublishRecords(s: State)
    requires RecordInv(s) && ContentEnabled(s, Publish)
    ensures RecordInv(ContentApply(s, Publish)) && Grows(s, ContentApply(s, Publish))
  {
    hide AttemptShape, Lists, TargetFiles, FileSet, ListedIn;
    assert forall st :: Accounted(ContentApply(s, Publish), st) <==> Accounted(s, st);
  }

  lemma OpenRecords(s: State, w: Waiting, storage: Storage)
    requires RecordInv(s) && GateEnabled(s, OpenAttempt(w, storage))
    ensures RecordInv(GateApply(s, OpenAttempt(w, storage))) && Grows(s, GateApply(s, OpenAttempt(w, storage)))
  {
    hide Loads, AttemptsPass, Script;
    var op := w.plan.op;
    var s' := GateApply(s, OpenAttempt(w, storage));
    if op in s.saved { assert AttemptShape(s.saved[op]); }
    assert AttemptShape(s'.saved[op]);
    assert Grows(s, s');
    forall st | st in s'.storages ensures Accounted(s', st) { GrowsAccounts(s, s', st); }
  }

  lemma OtherGateRecords(s: State, a: Step)
    requires RecordInv(s) && GateStep(a) && !a.OpenAttempt? && GateEnabled(s, a)
    ensures RecordInv(GateApply(s, a)) && Grows(s, GateApply(s, a))
  {
    hide AttemptShape, ListedIn, Loads, AttemptsPass, Walked, FromRoot;
    assert forall st :: Accounted(GateApply(s, a), st) <==> Accounted(s, st);
  }

  lemma HostRecords(s: State, a: Step)
    requires RecordInv(s) && HostStep(a) && HostEnabled(s, a)
    ensures RecordInv(HostApply(s, a)) && Grows(s, HostApply(s, a))
  {
    hide AttemptShape, ListedIn, Verifies;
    HostFrame(s, a);
    HostTrees(s, a);
    assert forall st :: Accounted(HostApply(s, a), st) <==> Accounted(s, st);
  }

  lemma HostTrees(s: State, a: Step)
    requires HostStep(a) && HostEnabled(s, a)
    ensures HostApply(s, a).storages.Keys == s.storages.Keys
  {
    hide Verifies;
  }

  lemma RecordedStep(s: State, a: Step)
    requires RecordInv(s) && Enabled(s, a)
    ensures RecordInv(Apply(s, a)) && Grows(s, Apply(s, a))
  {
    hide RecordInv, Grows, HostEnabled, HostApply, GateEnabled, GateApply, RecordEnabled, RecordApply, ContentEnabled, ContentApply;
    if HostStep(a) { HostRecords(s, a); }
    else if a.OpenAttempt? { OpenRecords(s, a.w, a.storage); }
    else if GateStep(a) { OtherGateRecords(s, a); }
    else if RecordStep(a) { RecordRecords(s, a); }
    else if a.Publish? { PublishRecords(s); }
    else { ContentRecords(s, a); }
  }

  lemma JournalGrowsOn(j: Journal, mid: Journal, j': Journal)
    requires JournalGrows(j, mid) && JournalGrows(mid, j')
    ensures JournalGrows(j, j')
  {}

  lemma GrowsOn(s: State, mid: State, s': State)
    requires Grows(s, mid) && Grows(mid, s')
    ensures Grows(s, s')
  {
    hide JournalGrows;
    forall op | op in s.saved ensures op in s'.saved && JournalGrows(s.saved[op], s'.saved[op]) {
      JournalGrowsOn(s.saved[op], mid.saved[op], s'.saved[op]);
    }
  }

  lemma {:induction false} RecordHolds(s: State, steps: seq<Step>, s': State)
    requires RecordInv(s) && Steps(s, steps, s')
    ensures RecordInv(s') && Grows(s, s')
    decreases |steps|
  {
    hide RecordInv, Grows, Enabled, Apply;
    if steps == [] {
      GrowsSelf(s);
    } else {
      RecordedStep(s, steps[0]);
      RecordHolds(Apply(s, steps[0]), steps[1..], s');
      GrowsOn(s, Apply(s, steps[0]), s');
    }
  }

  lemma GrowsSelf(s: State)
    ensures Grows(s, s)
  {}

  /** In every run: no attempt is ever dropped from its journal, earlier attempts keep their entries, every tree that
      exists is some attempt's, all attempts but the last are abandoned, and no path is recorded without its directory. */
  lemma NothingUnrecorded(s0: State, before: seq<Step>, s: State, later: seq<Step>, s': State)
    requires Init(s0) && Steps(s0, before, s) && Steps(s, later, s')
    ensures Grows(s, s') && (forall op :: op in s'.saved ==> AttemptShape(s'.saved[op]))
    ensures forall st :: st in s'.storages ==> Accounted(s', st)
  {
    assert RecordInv(s0);
    hide Steps, Init, Grows, AttemptShape, Accounted;
    RecordHolds(s0, before, s);
    RecordHolds(s, later, s');
  }

  // ----- The manifest comes last -----

  predicate ReservesManifest(a: Attempt) { MANIFEST in a.entries && !a.entries[MANIFEST].directory }

  predicate WantsManifest(r: Run) {
    (r.at.FileWanted? || r.at.FileMade?) && r.at.path == MANIFEST && !Lists(r.plan.facts.files, MANIFEST)
  }

  /** An attempt that has reserved the manifest's file, of a source without such a file, is activated. */
  ghost predicate ManifestAfter(s: State, j: Journal) {
    !Lists(j.facts.files, MANIFEST) ==>
      forall i :: 0 <= i < |j.attempts| && ReservesManifest(j.attempts[i]) ==> Active(s, j.attempts[i].storage)
  }

  ghost predicate ManifestInv(s: State) {
    && (forall op :: op in s.saved ==> ManifestAfter(s, s.saved[op]))
    && (s.run.Some? ==> InRun(s) && s.saved[s.run.value.plan.op].facts == s.run.value.plan.facts)
    && (s.run.Some? && WantsManifest(s.run.value) ==> Active(s, s.run.value.storage))
  }

  /** A recording step reserves the manifest only in an activated copy. */
  lemma RecordReserves(s: State, a: Step)
    requires InRun(s) && RecordStep(a) && RecordEnabled(s, a) && InRun(RecordApply(s, a))
    requires var r := s.run.value; var free := !Lists(r.plan.facts.files, MANIFEST);
      (free && ReservesManifest(Mine(s)) ==> Active(s, r.storage)) && (WantsManifest(r) ==> Active(s, r.storage))
    ensures var s' := RecordApply(s, a); var r := s.run.value; var free := !Lists(r.plan.facts.files, MANIFEST);
      && s'.copies == s.copies
      && (free && ReservesManifest(Mine(s')) ==> Active(s, r.storage)) && (WantsManifest(s'.run.value) ==> Active(s, r.storage))
  {
    hide IsDirectory, Lists;
  }

  lemma ManifestLocal(s: State, s': State)
    requires RecordInv(s) && ManifestInv(s) && Local(s, s') && s'.copies == s.copies
    requires !Lists(s.run.value.plan.facts.files, MANIFEST) && ReservesManifest(Mine(s')) ==> Active(s, s.run.value.storage)
    requires WantsManifest(s'.run.value) ==> Active(s, s.run.value.storage)
    ensures ManifestInv(s')
  {
    hide Lists, ReservesManifest, WantsManifest, Accounted, AttemptShape;
    var op := s.run.value.plan.op;
    assert ManifestAfter(s, s.saved[op]);
    assert s'.saved[op].attempts[|s'.saved[op].attempts| - 1] == Mine(s');
    forall o | o in s'.saved ensures ManifestAfter(s', s'.saved[o]) {
      if o != op { assert s'.saved[o] == s.saved[o] && ManifestAfter(s, s.saved[o]); }
    }
  }

  lemma RecordManifest(s: State, a: Step)
    requires RecordInv(s) && ManifestInv(s) && RecordStep(a) && RecordEnabled(s, a)
    ensures ManifestInv(RecordApply(s, a))
  {
    RunningManifest(s);
    hide RecordEnabled, RecordApply, ManifestInv, Accounted, AttemptShape, Local, Lists, ReservesManifest, WantsManifest;
    RecordIsLocal(s, a);
    LocalRuns(s, RecordApply(s, a));
    RecordReserves(s, a);
    ManifestLocal(s, RecordApply(s, a));
  }

  lemma RunningManifest(s: State)
    requires RecordInv(s) && ManifestInv(s) && s.run.Some?
    ensures var r := s.run.value;
      && InRun(s) && Mine(s).storage == r.storage
      && (!Lists(r.plan.facts.files, MANIFEST) && ReservesManifest(Mine(s)) ==> Active(s, r.storage))
      && (WantsManifest(r) ==> Active(s, r.storage))
  {
    hide Lists, ReservesManifest, WantsManifest, Accounted, AttemptShape;
    assert ManifestAfter(s, s.saved[s.run.value.plan.op]);
  }

  /** Steps that rewrite no entries and deactivate nothing keep it. */
  lemma ManifestFrame(s: State, s': State)
    requires ManifestInv(s) && (forall st :: Active(s, st) ==> Active(s', st)) && s'.saved.Keys == s.saved.Keys
    requires forall op :: op in s.saved ==>
      && s'.saved[op].facts == s.saved[op].facts && |s'.saved[op].attempts| == |s.saved[op].attempts|
      && forall i :: 0 <= i < |s.saved[op].attempts| ==>
           && s'.saved[op].attempts[i].entries == s.saved[op].attempts[i].entries
           && s'.saved[op].attempts[i].storage == s.saved[op].attempts[i].storage
    requires s'.run.Some? ==>
      && s.run.Some? && s'.run.value.plan == s.run.value.plan && s'.run.value.storage == s.run.value.storage
      && (WantsManifest(s'.run.value) ==> WantsManifest(s.run.value))
    ensures ManifestInv(s')
  {
    hide Lists, WantsManifest, Active;
    forall op | op in s'.saved ensures ManifestAfter(s', s'.saved[op]) {
      assert ManifestAfter(s, s.saved[op]);
      assert forall i :: 0 <= i < |s.saved[op].attempts| ==>
        (ReservesManifest(s'.saved[op].attempts[i]) <==> ReservesManifest(s.saved[op].attempts[i]));
    }
  }

  lemma ContentManifest(s: State, a: Step)
    requires ManifestInv(s) && ContentStep(a) && ContentEnabled(s, a)
    ensures ManifestInv(ContentApply(s, a))
  {
    hide TargetFiles, FileSet, Lists, ManifestAfter;
    ManifestFrameContent(s, a);
    hide ManifestInv, ContentEnabled, ContentApply;
    ManifestFrame(s, ContentApply(s, a));
  }

  lemma ManifestFrameContent(s: State, a: Step)
    requires ContentStep(a) && ContentEnabled(s, a)
    ensures var s' := ContentApply(s, a);
      && (forall st :: Active(s, st) ==> Active(s', st)) && s'.saved.Keys == s.saved.Keys
      && (forall op :: op in s.saved ==>
           && s'.saved[op].facts == s.saved[op].facts && |s'.saved[op].attempts| == |s.saved[op].attempts|
           && forall i :: 0 <= i < |s.saved[op].attempts| ==>
                && s'.saved[op].attempts[i].entries == s.saved[op].attempts[i].entries
                && s'.saved[op].attempts[i].storage == s.saved[op].attempts[i].storage)
      && s.run.Some? && s'.run.Some? && s'.run.value.plan == s.run.value.plan
      && s'.run.value.storage == s.run.value.storage && !WantsManifest(s'.run.value)
  {
    hide TargetFiles, FileSet, Lists, WantsManifest;
    ContentWantsNothing(s, a);
  }

  lemma ContentWantsNothing(s: State, a: Step)
    requires ContentStep(a) && ContentEnabled(s, a)
    ensures ContentApply(s, a).run.Some? && !WantsManifest(ContentApply(s, a).run.value)
  {
    hide TargetFiles, FileSet, Lists;
  }

  lemma GateManifest(s: State, a: Step)
    requires ManifestInv(s) && GateStep(a) && GateEnabled(s, a)
    ensures ManifestInv(GateApply(s, a))
  {
    hide AttemptsPass, Script, Walked, Lists;
    var s' := GateApply(s, a);
    assert s'.copies == s.copies;
    forall op | op in s'.saved ensures ManifestAfter(s', s'.saved[op]) {
      if op in s.saved { assert ManifestAfter(s, s.saved[op]); }
    }
  }

  lemma HostManifest(s: State, a: Step)
    requires ManifestInv(s) && HostStep(a) && HostEnabled(s, a)
    ensures ManifestInv(HostApply(s, a))
  {
    hide Verifies, ManifestAfter, HostEnabled, HostApply;
    HostFrame(s, a);
    ManifestFrame(s, HostApply(s, a));
  }

  lemma ManifestStep(s: State, a: Step)
    requires RecordInv(s) && ManifestInv(s) && Enabled(s, a)
    ensures ManifestInv(Apply(s, a))
  {
    hide RecordInv, ManifestInv, HostEnabled, HostApply, GateEnabled, GateApply, RecordEnabled, RecordApply, ContentEnabled, ContentApply;
    if HostStep(a) { HostManifest(s, a); }
    else if GateStep(a) { GateManifest(s, a); }
    else if RecordStep(a) { RecordManifest(s, a); }
    else { ContentManifest(s, a); }
  }

  lemma {:induction false} ManifestHolds(s: State, steps: seq<Step>, s': State)
    requires RecordInv(s) && ManifestInv(s) && Steps(s, steps, s')
    ensures ManifestInv(s')
    decreases |steps|
  {
    hide RecordInv, ManifestInv, Enabled, Apply;
    if steps != [] {
      RecordedStep(s, steps[0]);
      ManifestStep(s, steps[0]);
      ManifestHolds(Apply(s, steps[0]), steps[1..], s');
    }
  }

  /** In every run the manifest's file, unless the source has one of that name, is reserved in activated copies only. */
  lemma ManifestComesLast(s0: State, steps: seq<Step>, s: State, op: Op)
    requires Init(s0) && Steps(s0, steps, s) && op in s.saved
    ensures ManifestAfter(s, s.saved[op])
  {
    assert RecordInv(s0) && ManifestInv(s0);
    hide Steps, Init, ManifestAfter;
    ManifestHolds(s0, steps, s);
  }

  // ----- What copying and preparing wait for -----

  /** Storages are apart; a database copy has its recorded file, and a prepared attempt its manifest. */
  ghost predicate JournalOrder(s: State, j: Journal) {
    && (forall i, k :: 0 <= i < k < |j.attempts| ==> j.attempts[i].storage != j.attempts[k].storage)
    && (forall i :: 0 <= i < |j.attempts| ==> InOrder(s, j.attempts[i]))
  }

  predicate InOrder(s: State, a: Attempt) {
    && (a.storage in s.copies ==> DATABASE in a.entries)
    && (a.condition == Prepared ==> a.storage in s.manifests)
  }

  ghost predicate OrderInv(s: State) {
    && (forall op :: op in s.saved ==> s.fence == Some(op) && JournalOrder(s, s.saved[op]))
    && (s.run.Some? && (s.run.value.at == RootWanted || s.run.value.at == RootMade) ==> s.run.value.storage !in s.copies)
  }

  lemma OrderLocal(s: State, s': State)
    requires RecordInv(s) && OrderInv(s) && Local(s, s')
    requires forall st :: st in s'.copies && st != s.run.value.storage ==> st in s.copies
    requires forall st :: st in s.manifests ==> st in s'.manifests
    requires InOrder(s', Mine(s'))
    requires s'.run.value.at == RootWanted || s'.run.value.at == RootMade ==> s'.run.value.storage !in s'.copies
    ensures OrderInv(s')
  {
    var op := s.run.value.plan.op;
    assert s'.saved.Keys == s.saved.Keys;
    forall o | o in s'.saved ensures s'.fence == Some(o) && JournalOrder(s', s'.saved[o]) {
      assert o == op;
      assert JournalOrder(s, s.saved[op]);
      var attempts, last := s'.saved[op].attempts, |s'.saved[op].attempts| - 1;
      assert attempts[last] == Mine(s');
      forall i | 0 <= i < last ensures InOrder(s', attempts[i]) {
        assert attempts[i] == s.saved[op].attempts[i] && InOrder(s, attempts[i]);
        assert attempts[i].storage != s.run.value.storage;
      }
    }
  }

  lemma RecordMine(s: State, a: Step)
    requires InRun(s) && Mine(s).storage == s.run.value.storage && RecordStep(a) && RecordEnabled(s, a)
    requires InOrder(s, Mine(s)) && InRun(RecordApply(s, a))
    requires s.run.value.at == RootWanted || s.run.value.at == RootMade ==> s.run.value.storage !in s.copies
    ensures var s' := RecordApply(s, a);
      && s'.copies == s.copies && s'.manifests == s.manifests && InOrder(s', Mine(s'))
      && (s'.run.value.at == RootWanted || s'.run.value.at == RootMade ==> s'.run.value.storage !in s'.copies)
  {
    hide IsDirectory, Lists;
  }

  lemma ContentMine(s: State, a: Step)
    requires InRun(s) && Mine(s).storage == s.run.value.storage && ContentStep(a) && ContentEnabled(s, a) && !a.Publish?
    requires InOrder(s, Mine(s)) && InRun(ContentApply(s, a))
    ensures var s' := ContentApply(s, a);
      && (forall st :: st in s'.copies && st != s.run.value.storage ==> st in s.copies)
      && (forall st :: st in s.manifests ==> st in s'.manifests) && InOrder(s', Mine(s')) && s'.run.value.at == Idle
  {
    hide TargetFiles, FileSet, Lists;
  }

  lemma RunningInOrder(s: State)
    requires OrderInv(s) && InRun(s)
    ensures InOrder(s, Mine(s))
  {
    assert JournalOrder(s, s.saved[s.run.value.plan.op]);
  }

  lemma RecordOrder(s: State, a: Step)
    requires RecordInv(s) && OrderInv(s) && RecordStep(a) && RecordEnabled(s, a)
    ensures OrderInv(RecordApply(s, a))
  {
    assert s.run.value.at == RootWanted || s.run.value.at == RootMade ==> s.run.value.storage !in s.copies;
    RunningInOrder(s);
    hide RecordEnabled, RecordApply, OrderInv, Accounted, AttemptShape, Local, InOrder;
    RecordIsLocal(s, a);
    LocalRuns(s, RecordApply(s, a));
    RecordMine(s, a);
    OrderLocal(s, RecordApply(s, a));
  }

  lemma ContentOrder(s: State, a: Step)
    requires RecordInv(s) && OrderInv(s) && ContentStep(a) && ContentEnabled(s, a) && !a.Publish?
    ensures OrderInv(ContentApply(s, a))
  {
    assert InRun(s) by { hide TargetFiles, FileSet, Lists; }
    RunningInOrder(s);
    hide ContentEnabled, ContentApply, OrderInv, Accounted, AttemptShape, Local, InOrder;
    ContentIsLocal(s, a);
    LocalRuns(s, ContentApply(s, a));
    ContentMine(s, a);
    OrderLocal(s, ContentApply(s, a));
  }

  lemma SameJournals(s: State, s': State)
    requires OrderInv(s) && s'.saved == s.saved && s'.copies == s.copies && s'.manifests == s.manifests && s'.fence == s.fence
    requires s'.run.Some? && (s'.run.value.at == RootWanted || s'.run.value.at == RootMade) ==> s'.run == s.run
    ensures OrderInv(s')
  {
    forall op | op in s'.saved ensures JournalOrder(s', s'.saved[op]) { assert JournalOrder(s, s.saved[op]); }
  }

  lemma PublishOrder(s: State)
    requires OrderInv(s) && ContentEnabled(s, Publish)
    ensures OrderInv(ContentApply(s, Publish))
  {
    hide TargetFiles, FileSet, Lists, OrderInv;
    SameJournals(s, ContentApply(s, Publish));
  }

  lemma HostOrder(s: State, a: Step)
    requires OrderInv(s) && HostStep(a) && HostEnabled(s, a)
    ensures OrderInv(HostApply(s, a))
  {
    hide HostEnabled, HostApply, OrderInv;
    HostFrame(s, a);
    SameJournals(s, HostApply(s, a));
  }

  lemma OpenOrder(s: State, w: Waiting, storage: Storage)
    requires AuthorityInv(s) && ContentInv(s) && OrderInv(s) && GateEnabled(s, OpenAttempt(w, storage))
    ensures OrderInv(GateApply(s, OpenAttempt(w, storage)))
  {
    hide Loads, AttemptsPass, Script, ManifestsOk, SelectorOk, HoldsFiles;
    var op := w.plan.op;
    var s' := GateApply(s, OpenAttempt(w, storage));
    assert storage !in s.copies;
    if op in s.saved {
      assert JournalOrder(s, s.saved[op]);
      assert forall i :: 0 <= i < |s.saved[op].attempts| ==> InOrder(s, s.saved[op].attempts[i]);
    }
    assert JournalOrder(s', s'.saved[op]);
    forall o | o in s'.saved ensures s'.fence == Some(o) && JournalOrder(s', s'.saved[o]) { assert o == op; }
  }

  lemma OtherGateOrder(s: State, a: Step)
    requires OrderInv(s) && GateStep(a) && !a.OpenAttempt? && GateEnabled(s, a)
    ensures OrderInv(GateApply(s, a))
  {
    hide Loads, AttemptsPass, Walked, JournalOrder;
    var s' := GateApply(s, a);
    forall op | op in s'.saved ensures JournalOrder(s', s'.saved[op]) { SameOrder(s, s', s.saved[op]); }
  }

  lemma SameOrder(s: State, s': State, j: Journal)
    requires s'.copies == s.copies && s'.manifests == s.manifests
    ensures JournalOrder(s', j) <==> JournalOrder(s, j)
  {}

  lemma OrderStep(s: State, a: Step)
    requires AuthorityInv(s) && ContentInv(s) && RecordInv(s) && OrderInv(s) && Enabled(s, a)
    ensures OrderInv(Apply(s, a))
  {
    hide AuthorityInv, ContentInv, RecordInv, OrderInv,
      HostEnabled, HostApply, GateEnabled, GateApply, RecordEnabled, RecordApply, ContentEnabled, ContentApply;
    if HostStep(a) { HostOrder(s, a); }
    else if a.OpenAttempt? { OpenOrder(s, a.w, a.storage); }
    else if GateStep(a) { OtherGateOrder(s, a); }
    else if RecordStep(a) { RecordOrder(s, a); }
    else if a.Publish? { PublishOrder(s); }
    else { ContentOrder(s, a); }
  }

  lemma {:induction false} OrderHolds(s: State, steps: seq<Step>, s': State)
    requires AuthorityInv(s) && ContentInv(s) && RecordInv(s) && OrderInv(s) && Steps(s, steps, s')
    ensures RecordInv(s') && OrderInv(s')
    decreases |steps|
  {
    hide AuthorityInv, ContentInv, RecordInv, OrderInv, Enabled, Apply;
    if steps != [] {
      AuthorityStep(s, steps[0]);
      ContentsStep(s, steps[0]);
      RecordedStep(s, steps[0]);
      OrderStep(s, steps[0]);
      OrderHolds(Apply(s, steps[0]), steps[1..], s');
    }
  }

  /** In every run the database is copied only into a recorded file and an attempt prepared only with its manifest
      written; and what is published is a prepared attempt. */
  lemma WorkInOrder(s0: State, steps: seq<Step>, s: State, op: Op)
    requires Init(s0) && Steps(s0, steps, s)
    ensures op in s.saved ==> JournalOrder(s, s.saved[op])
    ensures Enabled(s, Publish) ==> InRun(s) && Mine(s).condition == Prepared && Mine(s).storage == s.run.value.storage
  {
    InitialAuthority(s0);
    hide Steps, Init, JournalOrder;
    assert ContentInv(s0) && RecordInv(s0) && OrderInv(s0) by { NothingYet(s0); }
    OrderHolds(s0, steps, s);
    if Enabled(s, Publish) { PublishIsPrepared(s); }
  }

  lemma NothingYet(s0: State)
    requires Init(s0)
    ensures ContentInv(s0) && RecordInv(s0) && OrderInv(s0)
  {}

  lemma PublishIsPrepared(s: State)
    requires ContentEnabled(s, Publish)
    ensures InRun(s) && Mine(s).condition == Prepared
  {
    hide TargetFiles, FileSet, Lists;
  }
}
