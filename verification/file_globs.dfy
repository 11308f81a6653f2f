/** The glob lists of src/project/FileGlobs.ts and the rule that selects project files with them.
    Glob matching itself is a parameter: `matches(pattern, path)`. */
module FileGlobs {

  /** Every file of a project. */
  const AllFiles: string := "**/**"

  /** Excludes the `.git` directory. */
  const ExcludeGit: string := "!.git/**"

  /** Excludes the `node_modules` directory. */
  const ExcludeNodeModules: string := "!node_modules/**"

  /** The default exclusions; they select nothing without a positive glob beside them. */
  const DefaultExcludes: seq<string> := [ExcludeGit, ExcludeNodeModules]

  /** All files except the default exclusions. */
  const DefaultFiles: seq<string> := [AllFiles] + DefaultExcludes

  /** A glob matcher: does `pattern` match `path`? */
  type Matcher = (string, string) -> bool

  predicate IsNegative(glob: string) {
    |glob| > 0 && glob[0] == '!'
  }

  /** The pattern a negative glob excludes. */
  function Excluded(glob: string): string
    requires IsNegative(glob)
  {
    glob[1..]
  }

  /** Some positive glob of `globs` matches `path`. */
  function IncludedBy(globs: seq<string>, path: string, matches: Matcher): (b: bool)
    ensures b <==> exists i :: 0 <= i < |globs| && !IsNegative(globs[i]) && matches(globs[i], path)
  {
    if |globs| == 0 then false
    else (!IsNegative(globs[0]) && matches(globs[0], path)) || IncludedBy(globs[1..], path, matches)
  }

  /** Some negative glob of `globs` matches `path`. */
  function ExcludedBy(globs: seq<string>, path: string, matches: Matcher): (b: bool)
    ensures b <==> exists i :: 0 <= i < |globs| && IsNegative(globs[i]) && matches(Excluded(globs[i]), path)
  {
    if |globs| == 0 then false
    else (IsNegative(globs[0]) && matches(Excluded(globs[0]), path)) || ExcludedBy(globs[1..], path, matches)
  }

  /** A file is selected when some positive glob matches it and no negative glob does. */
  predicate Selected(globs: seq<string>, path: string, matches: Matcher) {
    IncludedBy(globs, path, matches) && !ExcludedBy(globs, path, matches)
  }

  /** The glob list `streamFiles(...patterns)` hands on: the patterns followed by the default
      exclusions, or `DefaultFiles` when no pattern is given. */
  function StreamGlobs(patterns: seq<string>): (globs: seq<string>)
    ensures |patterns| == 0 ==> globs == DefaultFiles
    ensures |patterns| > 0 ==> |globs| == |patterns| + 2 && globs[..|patterns|] == patterns
    ensures |globs| >= 3 && globs[|globs| - 2..] == DefaultExcludes
  {
    if |patterns| == 0 then DefaultFiles else patterns + DefaultExcludes
  }

  // The shape of the constants: AllFiles is positive, both exclusions are negative and name the
  // .git and node_modules patterns, and DefaultFiles is AllFiles followed by the exclusions.
  lemma GlobConstantShapes()
    ensures !IsNegative(AllFiles)
    ensures IsNegative(ExcludeGit) && Excluded(ExcludeGit) == ".git/**"
    ensures IsNegative(ExcludeNodeModules) && Excluded(ExcludeNodeModules) == "node_modules/**"
    ensures |DefaultFiles| == 3 && DefaultFiles[0] == AllFiles && DefaultFiles[1..] == DefaultExcludes
    ensures forall i :: 0 <= i < |DefaultExcludes| ==> IsNegative(DefaultExcludes[i])
  {
  }

  /** The exclusions alone select nothing: they must be combined with a positive glob. */
  lemma DefaultExcludesSelectNothing(path: string, matches: Matcher)
    ensures !Selected(DefaultExcludes, path, matches)
  {
  }

  // Under DefaultFiles a file is selected exactly when the AllFiles pattern matches it and neither
  // the .git pattern nor the node_modules pattern does.
  lemma DefaultFilesSelection(path: string, matches: Matcher)
    ensures Selected(DefaultFiles, path, matches) <==>
              matches("**/**", path) && !matches(".git/**", path) && !matches("node_modules/**", path)
  {
    assert DefaultFiles[0] == "**/**" && !IsNegative(DefaultFiles[0]);
    assert Excluded(DefaultFiles[1]) == ".git/**";
    assert Excluded(DefaultFiles[2]) == "node_modules/**";
  }

  // streamFiles(...patterns) keeps a file exactly when one of the positive patterns matches it,
  // none of the negative patterns does, and neither default exclusion matches it.
  lemma StreamGlobsSelection(patterns: seq<string>, path: string, matches: Matcher)
    requires |patterns| > 0
    ensures Selected(StreamGlobs(patterns), path, matches) <==>
              IncludedBy(patterns, path, matches) && !ExcludedBy(patterns, path, matches)
              && !matches(".git/**", path) && !matches("node_modules/**", path)
  {
    var globs := StreamGlobs(patterns);
    assert globs == patterns + DefaultExcludes;
    var n := |patterns|;
    assert globs[n] == ExcludeGit && globs[n + 1] == ExcludeNodeModules;
    assert Excluded(globs[n]) == ".git/**" && Excluded(globs[n + 1]) == "node_modules/**";
    if IncludedBy(globs, path, matches) {
      var i :| 0 <= i < |globs| && !IsNegative(globs[i]) && matches(globs[i], path);
      assert i < n;
      assert patterns[i] == globs[i];
    }
    if IncludedBy(patterns, path, matches) {
      var i :| 0 <= i < |patterns| && !IsNegative(patterns[i]) && matches(patterns[i], path);
      assert globs[i] == patterns[i];
    }
    if ExcludedBy(patterns, path, matches) {
      var i :| 0 <= i < |patterns| && IsNegative(patterns[i]) && matches(Excluded(patterns[i]), path);
      assert globs[i] == patterns[i];
    }
    if ExcludedBy(globs, path, matches) {
      var i :| 0 <= i < |globs| && IsNegative(globs[i]) && matches(Excluded(globs[i]), path);
      if i < n {
        assert patterns[i] == globs[i];
      }
    }
  }
}
