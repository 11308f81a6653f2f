/** The `File` contract of lib/project/File.ts: a path with forward slashes, a name and an extension
    derived from it, and the `isFile` duck-typing check. */
module FileModel {
  import opened Wrappers
  import opened Strings

  /** A path the project can hold: non-empty and not ending in the `/` separator. */
  predicate ValidPath(path: string) {
    |path| > 0 && path[|path| - 1] != '/'
  }

  /** The file name: the path with any directory part removed. */
  function BaseName(path: string): (name: string)
    ensures '/' !in name
    ensures |name| <= |path| && name == path[|path| - |name|..]
    ensures |name| < |path| ==> path[|path| - |name| - 1] == '/'
    ensures ValidPath(path) ==> |name| > 0
  {
    AfterLast(path, '/')
  }

  /** The extension of a file name: the text after its last `.`, or "" when the name has no `.`. */
  function ExtensionOf(name: string): (ext: string)
    ensures '.' !in ext
    ensures |ext| <= |name| && ext == name[|name| - |ext|..]
    ensures '.' !in name ==> ext == ""
    ensures '.' in name ==> |ext| < |name| && name[|name| - |ext| - 1] == '.'
  {
    if '.' in name then
      var ext := AfterLast(name, '.');
      var dot :| 0 <= dot < |name| && name[dot] == '.';
      assert |ext| < |name| by {
        assert name[dot] !in ext;
      }
      ext
    else ""
  }

  /** A file of a project: its forward-slash path and its content. */
  datatype File = File(path: string, content: string) {
    function Name(): string { BaseName(path) }
    function Extension(): string { ExtensionOf(BaseName(path)) }
  }

  /** Joining a directory and a slash-free name yields a path whose name is that name. */
  lemma NameOfJoinedPath(dir: string, name: string)
    requires '/' !in name
    ensures BaseName(dir + "/" + name) == name
    ensures File(dir + "/" + name, "").Name() == name
  {
    AfterLastOfJoin(dir, '/', name);
  }

  /** A path without separators is its own name. */
  lemma NameOfTopLevelPath(path: string)
    requires '/' !in path
    ensures BaseName(path) == path
  {
    AfterLastWithoutSeparator(path, '/');
  }

  /** An untyped object as `isFile` sees it: a possibly missing `name` and `path`, and whether it
      has a `getContentSync` member. */
  datatype Candidate = Candidate(name: Option<string>, path: Option<string>, hasGetContentSync: bool)

  /** `!!s` on a possibly undefined string. */
  predicate Truthy(s: Option<string>) {
    s.Some? && |s.value| > 0
  }

  function IsFile(a: Candidate): bool {
    Truthy(a.name) && Truthy(a.path) && a.hasGetContentSync
  }

  /** A project file seen as an untyped object. */
  function AsCandidate(f: File): Candidate {
    Candidate(Some(f.Name()), Some(f.path), true)
  }

  /** `isFile` accepts a file exactly when its path is valid, and rejects any object that lacks a
      non-empty name, a non-empty path or `getContentSync`. */
  lemma IsFileCharacterization(f: File, a: Candidate)
    ensures IsFile(AsCandidate(f)) <==> ValidPath(f.path)
    ensures a.name == Some("") || a.path == Some("") || a.name.None? || a.path.None? || !a.hasGetContentSync
            ==> !IsFile(a)
  {
  }
}
