/** The in-memory project: a finite map from `/`-separated path to content. Directories are not
    stored; a directory exists while some stored path lies beneath it. Deletions recorded with
    `recordDeleteFile` wait in a queue until `flush`. */
module InMemoryProject {
  import opened Wrappers
  import opened Strings
  import opened FileModel
  import FileGlobs

  datatype Project = Project(files: map<string, string>, deferred: seq<string>)

  /** A `{ path, content }` pair as handed to `InMemoryProject.of`. */
  datatype FileSpec = FileSpec(path: string, content: string)

  /** The error message of `findFile` for a path that holds no file. */
  function NotFoundMessage(path: string): string {
    "File not found at " + path
  }

  /** `path` lies strictly beneath directory `dir`. */
  predicate UnderDir(path: string, dir: string) {
    |dir| > 0 && StartsWith(path, dir + "/")
  }

  /** No stored path lies beneath another stored path, so no path is both a file and a directory. */
  predicate Wf(p: Project) {
    forall f, g :: f in p.files && g in p.files ==> !UnderDir(f, g)
  }

  /** The project has recorded actions that `flush` has not yet applied. */
  predicate Dirty(p: Project) {
    |p.deferred| > 0
  }

  /** `new InMemoryProject()`. */
  function Empty(): (p: Project)
    ensures !Dirty(p) && Wf(p)
  {
    Project(map[], [])
  }

  /** `addFileSync`: store `content` at `path`, replacing any earlier content there. */
  function AddFileSync(p: Project, path: string, content: string): (r: Project)
    ensures path in r.files && r.files[path] == content
    ensures forall f :: f != path ==> (f in r.files <==> f in p.files)
    ensures forall f :: f in p.files && f != path ==> r.files[f] == p.files[f]
    ensures r.deferred == p.deferred
  {
    Project(p.files[path := content], p.deferred)
  }

  /** No later spec than the `i`-th names the same path. */
  predicate LastForPath(specs: seq<FileSpec>, i: nat)
    requires i < |specs|
  {
    forall j :: i < j < |specs| ==> specs[j].path != specs[i].path
  }

  /** `InMemoryProject.of(...specs)`: each spec added in turn, so a later spec for the same path wins. */
  function Of(specs: seq<FileSpec>): (p: Project)
    ensures !Dirty(p)
    ensures p.files.Keys == set s | s in specs :: s.path
    ensures forall i :: 0 <= i < |specs| && LastForPath(specs, i) ==> p.files[specs[i].path] == specs[i].content
  {
    if |specs| == 0 then Empty()
    else
      var init := specs[..|specs| - 1];
      var last := specs[|specs| - 1];
      var r := AddFileSync(Of(init), last.path, last.content);
      assert r.files.Keys == set s | s in specs :: s.path by {
        SpecPathsSnoc(specs);
      }
      assert forall i :: 0 <= i < |specs| && LastForPath(specs, i) ==> r.files[specs[i].path] == specs[i].content by {
        forall i | 0 <= i < |specs| && LastForPath(specs, i)
          ensures r.files[specs[i].path] == specs[i].content
        {
          if i < |specs| - 1 {
            LastForPathOfInit(specs, i);
          }
        }
      }
      r
  }

  lemma SpecPathsSnoc(specs: seq<FileSpec>)
    requires |specs| > 0
    ensures (set s | s in specs :: s.path)
            == (set s | s in specs[..|specs| - 1] :: s.path) + {specs[|specs| - 1].path}
  {
    assert specs == specs[..|specs| - 1] + [specs[|specs| - 1]];
  }

  lemma LastForPathOfInit(specs: seq<FileSpec>, i: nat)
    requires i < |specs| - 1 && LastForPath(specs, i)
    ensures specs[..|specs| - 1][i] == specs[i] && LastForPath(specs[..|specs| - 1], i)
    ensures specs[|specs| - 1].path != specs[i].path
  {
  }

  /** `findFileSync` (and `getFile`): the stored file at `path`, or undefined. */
  function FindFileSync(p: Project, path: string): (r: Option<File>)
    ensures r.Some? <==> path in p.files
    ensures r.Some? ==> r.value.path == path && r.value.content == p.files[path]
  {
    if path in p.files then Some(File(path, p.files[path])) else None
  }

  /** `findFile`: the stored file at `path`, or a rejection saying it was not found. */
  function FindFile(p: Project, path: string): (r: Result<File, string>)
    ensures r.Success? <==> FindFileSync(p, path).Some?
    ensures r.Success? ==> Some(r.value) == FindFileSync(p, path)
    ensures r.Failure? ==> r.error == NotFoundMessage(path)
  {
    match FindFileSync(p, path)
    case Some(f) => Success(f)
    case None => Failure(NotFoundMessage(path))
  }

  /** `hasFile` and `fileExistsSync`. */
  function HasFile(p: Project, path: string): (b: bool)
    ensures b <==> FindFileSync(p, path).Some?
  {
    path in p.files
  }

  /** `hasDirectory` and `directoryExistsSync`. */
  function HasDirectory(p: Project, dir: string): bool {
    exists f :: f in p.files && UnderDir(f, dir)
  }

  /** Every proper segment prefix of a stored path is a directory. */
  lemma AncestorsAreDirectories(p: Project, f: string, i: nat)
    requires f in p.files && 0 < i < |f| && f[i] == '/'
    ensures HasDirectory(p, f[..i])
  {
    assert f[..i + 1] == f[..i] + "/";
    assert UnderDir(f, f[..i]);
  }

  /** A directory is never returned as a file, and a file is never reported as a directory. */
  lemma DirectoriesAreNotFiles(p: Project, path: string)
    requires Wf(p)
    ensures HasDirectory(p, path) ==> FindFileSync(p, path).None? && !HasFile(p, path)
                                      && FindFile(p, path) == Failure(NotFoundMessage(path))
    ensures HasFile(p, path) ==> !HasDirectory(p, path)
  {
  }

  /** `deleteFileSync`: remove the file at `path`; nothing else is touched. */
  function DeleteFileSync(p: Project, path: string): (r: Project)
    ensures !HasFile(r, path)
    ensures forall f :: f != path ==> (HasFile(r, f) <==> HasFile(p, f))
    ensures forall f :: f in r.files ==> f in p.files && r.files[f] == p.files[f]
    ensures r.deferred == p.deferred
    ensures Wf(p) ==> Wf(r)
  {
    Project(p.files - {path}, p.deferred)
  }

  /** After deleting a file, a directory survives exactly when some other file still lies beneath
      it: emptied directories disappear and populated ancestors stay. */
  lemma DeleteFilePrunesEmptyDirectories(p: Project, path: string, dir: string)
    ensures HasDirectory(DeleteFileSync(p, path), dir) <==>
              exists f :: f in p.files && f != path && UnderDir(f, dir)
  {
    var r := DeleteFileSync(p, path);
    if exists f :: f in p.files && f != path && UnderDir(f, dir) {
      var f :| f in p.files && f != path && UnderDir(f, dir);
      assert f in r.files;
    }
  }

  /** `deleteDirectorySync`: remove every file beneath `dir`. */
  function DeleteDirectorySync(p: Project, dir: string): (r: Project)
    ensures forall f :: HasFile(r, f) <==> HasFile(p, f) && !UnderDir(f, dir)
    ensures forall f :: f in r.files ==> f in p.files && r.files[f] == p.files[f]
    ensures !HasDirectory(r, dir)
    ensures r.deferred == p.deferred
    ensures Wf(p) ==> Wf(r)
  {
    Project(map f | f in p.files && !UnderDir(f, dir) :: p.files[f], p.deferred)
  }

  /** A sibling directory whose name merely starts with the deleted directory's name (`.travis-save`
      beside `.travis`) keeps its files and stays a directory. */
  lemma DeleteDirectorySparesPrefixSiblings(p: Project, dir: string, sibling: string)
    requires |sibling| > |dir| && StartsWith(sibling, dir) && sibling[|dir|] != '/'
    ensures forall f :: f in p.files && UnderDir(f, sibling) ==> HasFile(DeleteDirectorySync(p, dir), f)
    ensures HasDirectory(p, sibling) ==> HasDirectory(DeleteDirectorySync(p, dir), sibling)
  {
    var r := DeleteDirectorySync(p, dir);
    forall f | f in p.files && UnderDir(f, sibling)
      ensures HasFile(r, f)
    {
      assert f[|dir|] == sibling[|dir|];
    }
    if HasDirectory(p, sibling) {
      var f :| f in p.files && UnderDir(f, sibling);
      assert f[|dir|] == sibling[|dir|];
      assert f in r.files;
    }
  }

  /** `recordAddFile`: the in-memory project applies an addition at once, so it stays clean. */
  function RecordAddFile(p: Project, path: string, content: string): (r: Project)
    ensures FindFileSync(r, path) == Some(File(path, content))
    ensures forall f :: f != path ==> FindFileSync(r, f) == FindFileSync(p, f)
    ensures r.deferred == p.deferred
  {
    AddFileSync(p, path, content)
  }

  /** `recordDeleteFile`: queue the deletion of `path`; the project becomes dirty. */
  function RecordDeleteFile(p: Project, path: string): (r: Project)
    ensures Dirty(r)
    ensures r.files == p.files
    ensures |r.deferred| == |p.deferred| + 1 && r.deferred[..|p.deferred|] == p.deferred && r.deferred[|p.deferred|] == path
  {
    Project(p.files, p.deferred + [path])
  }

  /** `flush`: apply the queued deletions in order and empty the queue. */
  function Flush(p: Project): (r: Project)
    ensures !Dirty(r)
    ensures forall f :: HasFile(r, f) <==> HasFile(p, f) && f !in p.deferred
    ensures forall f :: f in r.files ==> f in p.files && r.files[f] == p.files[f]
    ensures Wf(p) ==> Wf(r)
    decreases |p.deferred|
  {
    if |p.deferred| == 0 then p
    else Flush(Project(p.files - {p.deferred[0]}, p.deferred[1..]))
  }

  /** Adding through `recordAddFile` on a new project and flushing makes the file findable. */
  lemma RecordAddThenFlushFinds(path: string, content: string)
    ensures !Dirty(RecordAddFile(Empty(), path, content))
    ensures FindFileSync(Flush(RecordAddFile(Empty(), path, content)), path) == Some(File(path, content))
  {
  }

  /** A recorded deletion takes effect at `flush` and only then. */
  lemma RecordDeleteThenFlush(p: Project, path: string)
    requires !Dirty(p)
    ensures HasFile(RecordDeleteFile(p, path), path) == HasFile(p, path)
    ensures !HasFile(Flush(RecordDeleteFile(p, path)), path)
    ensures forall f :: f != path ==> (HasFile(Flush(RecordDeleteFile(p, path)), f) <==> HasFile(p, f))
  {
    var q := RecordDeleteFile(p, path);
    assert q.deferred == [path];
  }

  /** `streamFilesRaw(globs)`: the files some positive glob matches and no negative glob matches. */
  function StreamFilesRaw(p: Project, globs: seq<string>, matches: FileGlobs.Matcher): (r: map<string, string>)
    ensures forall f :: f in r <==> f in p.files && FileGlobs.Selected(globs, f, matches)
    ensures forall f :: f in r ==> r[f] == p.files[f]
  {
    map f | f in p.files && FileGlobs.Selected(globs, f, matches) :: p.files[f]
  }

  /** `streamFiles(...patterns)`: `streamFilesRaw` over the patterns plus the default exclusions. */
  function StreamFiles(p: Project, patterns: seq<string>, matches: FileGlobs.Matcher): map<string, string> {
    StreamFilesRaw(p, FileGlobs.StreamGlobs(patterns), matches)
  }

  /** `streamFiles` never yields a file that the `.git` or `node_modules` exclusion matches, and keeps
      every other file some positive pattern matches and no negative pattern excludes. */
  lemma StreamFilesExcludesDefaults(p: Project, patterns: seq<string>, matches: FileGlobs.Matcher, f: string)
    ensures f in StreamFiles(p, patterns, matches) ==> !matches(".git/**", f) && !matches("node_modules/**", f)
    ensures |patterns| > 0 ==>
              (f in StreamFiles(p, patterns, matches) <==>
                 f in p.files && FileGlobs.IncludedBy(patterns, f, matches) && !FileGlobs.ExcludedBy(patterns, f, matches)
                 && !matches(".git/**", f) && !matches("node_modules/**", f))
    ensures |patterns| == 0 ==>
              (f in StreamFiles(p, patterns, matches) <==>
                 f in p.files && matches("**/**", f) && !matches(".git/**", f) && !matches("node_modules/**", f))
  {
    if |patterns| == 0 {
      FileGlobs.DefaultFilesSelection(f, matches);
    } else {
      FileGlobs.StreamGlobsSelection(patterns, f, matches);
    }
  }
  /** The project of the deletion scenarios: four top-level files and five nested ones. */
  function DeleteScenario(): Project {
    Project(map[
      "README.md" := "# This project\n",
      "LICENSE" := "The license.\n",
      "CODE_OF_CONDUCT.md" := "The code.\n",
      "CONTRIBUTING.md" := "Contribute.\n",
      "src/main/java/Command.java" := "package main",
      ".travis/travis-build.bash" := "#!/bin/bash\n",
      ".travis/some.patch" := "--- a/c.d\n+++ b/c.d\n",
      "src/test/scala/CommandTest.scala" := "package main",
      ".travis-save/travis-build.bash" := "#!/bin/bash\necho save me\n"], [])
  }

  /** A path whose `k`-th character differs from that of `dir + "/"` is not beneath `dir`. */
  lemma NotUnderByChar(f: string, dir: string, k: nat)
    requires k < |f| && k <= |dir| && f[k] != (dir + "/")[k]
    ensures !UnderDir(f, dir)
  {
    if |dir| + 1 <= |f| {
      assert f[..|dir| + 1][k] != (dir + "/")[k];
    }
  }

  /** The stored paths of the deletion scenario. */
  lemma DeleteScenarioPaths()
    ensures DeleteScenario().files.Keys ==
              {"README.md", "LICENSE", "CODE_OF_CONDUCT.md", "CONTRIBUTING.md", "src/main/java/Command.java",
               ".travis/travis-build.bash", ".travis/some.patch", "src/test/scala/CommandTest.scala",
               ".travis-save/travis-build.bash"}
  {
  }

  /** Apart from `src/main/java/Command.java`, no file of the scenario lies beneath `src/main`. */
  lemma OnlyCommandUnderSrcMain(f: string)
    requires f in DeleteScenario().files && f != "src/main/java/Command.java"
    ensures !UnderDir(f, "src/main") && !UnderDir(f, "src/main/java")
  {
    DeleteScenarioPaths();
    var k := if f == "src/test/scala/CommandTest.scala" then 4 else 0;
    NotUnderByChar(f, "src/main", k);
    NotUnderByChar(f, "src/main/java", k);
  }

  /** Deleting `src/main/java/Command.java` removes `src/main` and `src/main/java` but keeps `src`,
      which still holds `src/test/scala`. */
  lemma DeleteScenarioPrunesSrcMain()
    ensures var r := DeleteFileSync(DeleteScenario(), "src/main/java/Command.java");
            HasDirectory(r, "src") && HasDirectory(r, "src/test/scala")
            && !HasDirectory(r, "src/main") && !HasDirectory(r, "src/main/java")
  {
    DeleteScenarioKeepsSrc();
    DeleteScenarioDropsSrcMain();
  }

  lemma DeleteScenarioKeepsSrc()
    ensures var r := DeleteFileSync(DeleteScenario(), "src/main/java/Command.java");
            HasDirectory(r, "src") && HasDirectory(r, "src/test/scala")
  {
    var r := DeleteFileSync(DeleteScenario(), "src/main/java/Command.java");
    var kept := "src/test/scala/CommandTest.scala";
    ScenarioTestFile();
    assert kept in r.files;
  }

  /** The Scala test file of the scenario survives the deletion and lies beneath `src` and
      `src/test/scala`. */
  lemma ScenarioTestFile()
    ensures "src/test/scala/CommandTest.scala" in DeleteScenario().files
    ensures "src/test/scala/CommandTest.scala" != "src/main/java/Command.java"
    ensures UnderDir("src/test/scala/CommandTest.scala", "src")
    ensures UnderDir("src/test/scala/CommandTest.scala", "src/test/scala")
  {
    assert "src/test/scala/CommandTest.scala"[4] != "src/main/java/Command.java"[4];
  }

  lemma DeleteScenarioDropsSrcMain()
    ensures var r := DeleteFileSync(DeleteScenario(), "src/main/java/Command.java");
            !HasDirectory(r, "src/main") && !HasDirectory(r, "src/main/java")
  {
    var r := DeleteFileSync(DeleteScenario(), "src/main/java/Command.java");
    forall f | f in r.files
      ensures !UnderDir(f, "src/main") && !UnderDir(f, "src/main/java")
    {
      OnlyCommandUnderSrcMain(f);
    }
  }

  /** Deleting the directory `.travis` removes its two files and the directory, and spares
      `.travis-save`. */
  lemma DeleteScenarioSparesTravisSave()
    ensures var r := DeleteDirectorySync(DeleteScenario(), ".travis");
            !HasDirectory(r, ".travis") && HasDirectory(r, ".travis-save")
            && HasFile(r, ".travis-save/travis-build.bash")
            && !HasFile(r, ".travis/travis-build.bash") && !HasFile(r, ".travis/some.patch")
  {
    ScenarioTravisSaveKept();
    assert UnderDir(".travis/travis-build.bash", ".travis");
    assert UnderDir(".travis/some.patch", ".travis");
  }

  /** The file under `.travis-save` survives deleting `.travis`. */
  lemma ScenarioTravisSaveKept()
    ensures var r := DeleteDirectorySync(DeleteScenario(), ".travis");
            HasFile(r, ".travis-save/travis-build.bash") && HasDirectory(r, ".travis-save")
  {
    var p := DeleteScenario();
    var saved := ".travis-save/travis-build.bash";
    assert saved in p.files;
    assert UnderDir(saved, ".travis-save");
    DeleteDirectorySparesPrefixSiblings(p, ".travis", ".travis-save");
  }
}
