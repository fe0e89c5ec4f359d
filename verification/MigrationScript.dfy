/** The names one pipeline records, in order, and why no name is recorded twice. */
module MigrationScript {
  import opened Migration
  import opened MigrationDesk

  type Files = seq<(Path, Content)>

  /** No source file lies inside a directory that has the manifest's name. */
  ghost predicate Harmless(files: Files) { forall i :: 0 <= i < |files| ==> !Below(files[i].0, MANIFEST) }

  lemma InScript(files: Files, item: Item)
    ensures item in Script(files) <==>
      || item in CATEGORIES || item == FileItem(DATABASE)
      || (item.FileItem? && Lists(files, item.path))
      || (item == FileItem(MANIFEST) && !Lists(files, MANIFEST))
  {
    var head := CATEGORIES + [FileItem(DATABASE)];
    var tail := if Lists(files, MANIFEST) then [] else [FileItem(MANIFEST)];
    assert Script(files) == head + FileItems(files) + tail;
    assert item in FileItems(files) <==> item.FileItem? && Lists(files, item.path) by {
      if item.FileItem? && Lists(files, item.path) {
        var i :| 0 <= i < |files| && files[i].0 == item.path;
        assert FileItems(files)[i] == item;
      }
    }
  }

  lemma ItemShape(files: Files, item: Item)
    requires Walked(files) && item in Script(files)
    ensures item.path != [] && (Category(item.path[0]) || item.path == DATABASE)
    ensures item.DirItem? ==> |item.path| == 1 && Category(item.path[0])
    ensures forall k :: 0 <= k < |item.path| ==> Plain(item.path[k])
  {
    InScript(files, item);
  }

  /** Directories above an item carry no name SQLite uses. */
  lemma DirectoryName(files: Files, item: Item, d: Path)
    requires Walked(files) && item in Script(files) && d != [] && d <= DirOf(item)
    ensures !Auxiliary(d) && forall k :: 0 <= k < |d| ==> Plain(d[k])
  {
    ItemShape(files, item);
    assert d <= item.path;
    assert d[0] == item.path[0];
  }

  ghost predicate DirNeeded(files: Files, p: Path) { exists item :: item in Script(files) && p <= DirOf(item) }

  predicate FileNeeded(files: Files, p: Path) { FileItem(p) in Script(files) }

  /** A recorded directory lies above some item; a recorded file is an item already taken up. */
  ghost predicate Origins(files: Files, rest: seq<Item>, entries: Entries) {
    forall p :: p in entries ==>
      if entries[p].directory then p == ROOT || DirNeeded(files, p)
      else FileNeeded(files, p) && FileItem(p) !in rest
  }

  lemma ListedApart(files: Files, p: Path, q: Path)
    requires Walked(files) && p <= q
    ensures Lists(files, p) && Lists(files, q) ==> p == q
  {}

  /** Only the manifest's own name can be wanted both as a file and as a directory. */
  lemma FileNotDirectory(files: Files, p: Path)
    requires Walked(files) && FileNeeded(files, p) && DirNeeded(files, p)
    ensures p == MANIFEST && !Harmless(files)
  {
    var item :| item in Script(files) && p <= DirOf(item);
    InScript(files, item);
    InScript(files, FileItem(p));
    ItemShape(files, FileItem(p));
    if item.FileItem? && Lists(files, item.path) {
      var j :| 0 <= j < |files| && files[j].0 == item.path;
      assert p <= files[j].0 && p != files[j].0;
      ListedApart(files, p, item.path);
      assert p[0] == files[j].0[0];
      assert Below(files[j].0, MANIFEST);
    }
  }

  lemma ScriptDistinct(files: Files, i: nat, j: nat)
    requires Walked(files) && i < j < |Script(files)|
    ensures Script(files)[i] != Script(files)[j]
  {
    var n := |files|;
    assert |Script(files)| <= n + 6;
    assert forall k :: 5 <= k < 5 + n ==> Script(files)[k] == FileItem(files[k - 5].0);
    if 5 <= i && j < 5 + n {
      assert !(files[i - 5].0 <= files[j - 5].0);
    }
    if 5 <= i < 5 + n && j == 5 + n {
      assert Lists(files, files[i - 5].0);
    }
  }

  predicate Suffix(todo: seq<Item>, script: seq<Item>) {
    |todo| <= |script| && todo == script[|script| - |todo|..]
  }

  lemma HeadOnce(files: Files, todo: seq<Item>)
    requires Walked(files) && Suffix(todo, Script(files)) && todo != []
    ensures todo[0] in Script(files) && todo[0] !in todo[1..] && Suffix(todo[1..], Script(files))
  {
    var script := Script(files);
    var k := |script| - |todo|;
    forall m | 0 <= m < |todo| - 1 ensures todo[1..][m] != todo[0] {
      ScriptDistinct(files, k, k + 1 + m);
    }
  }

  /** A file about to be reserved is not recorded yet. */
  lemma HeadUnreserved(files: Files, todo: seq<Item>, entries: Entries)
    requires Walked(files) && Suffix(todo, Script(files)) && todo != [] && todo[0].FileItem?
    requires Origins(files, todo, entries)
    requires Harmless(files) || todo[0].path != MANIFEST
    ensures todo[0].path !in entries
  {
    HeadOnce(files, todo);
    var p := todo[0].path;
    ItemShape(files, todo[0]);
    if p in entries && entries[p].directory { FileNotDirectory(files, p); }
  }

  lemma OriginsShrink(files: Files, todo: seq<Item>, entries: Entries)
    requires Origins(files, todo, entries) && todo != []
    ensures Origins(files, todo[1..], entries)
  {
    hide DirNeeded, FileNeeded;
  }

  /** The journal's directories and files after one more of either. */
  lemma OriginsDirectory(files: Files, todo: seq<Item>, entries: Entries, d: Path, e: Entry)
    requires Suffix(todo, Script(files)) && todo != [] && d <= DirOf(todo[0]) && e.directory && Origins(files, todo, entries)
    ensures Origins(files, todo, entries[d := e])
  {
    hide FileNeeded;
    assert todo[0] in Script(files);
    assert DirNeeded(files, d);
    hide DirNeeded;
  }

  lemma OriginsFile(files: Files, todo: seq<Item>, entries: Entries, e: Entry)
    requires Walked(files) && Suffix(todo, Script(files)) && todo != [] && todo[0].FileItem? && !e.directory
    requires Origins(files, todo, entries)
    ensures Origins(files, todo[1..], entries[todo[0].path := e])
  {
    HeadOnce(files, todo);
    hide DirNeeded;
  }

  lemma AuxiliaryUnrecorded(files: Files, rest: seq<Item>, entries: Entries, p: Path)
    requires Walked(files) && Origins(files, rest, entries) && Auxiliary(p)
    ensures p !in entries
  {
    if p in entries {
      if entries[p].directory {
        var item :| item in Script(files) && p <= DirOf(item);
        DirectoryName(files, item, p);
      } else {
        ItemShape(files, FileItem(p));
      }
    }
  }

  lemma LastIsManifest(files: Files, todo: seq<Item>)
    requires Suffix(todo, Script(files)) && todo != [] && !Lists(files, MANIFEST)
    ensures FileItem(MANIFEST) in todo
  {
    var script := Script(files);
    assert script[|script| - 1] == FileItem(MANIFEST);
    assert todo[|todo| - 1] == script[|script| - 1];
  }

  /** A recorded name above an item still to do is a directory. */
  lemma PrefixIsDirectory(files: Files, todo: seq<Item>, entries: Entries, q: Path)
    requires Walked(files) && Suffix(todo, Script(files)) && todo != [] && Origins(files, todo, entries)
    requires q in entries && q <= DirOf(todo[0])
    ensures entries[q].directory
  {
    HeadOnce(files, todo);
    if !entries[q].directory {
      assert DirNeeded(files, q);
      FileNotDirectory(files, q);
      if !Lists(files, MANIFEST) {
        LastIsManifest(files, todo);
      } else {
        NothingInsideFile(files, MANIFEST);
      }
    }
  }

  lemma NothingInsideFile(files: Files, p: Path)
    requires Walked(files) && Lists(files, p)
    ensures forall i :: 0 <= i < |files| ==> !Below(files[i].0, p)
  {
    forall i | 0 <= i < |files| ensures !Below(files[i].0, p) {
      if p <= files[i].0 {
        assert Lists(files, files[i].0);
        ListedApart(files, p, files[i].0);
      }
    }
  }
}
