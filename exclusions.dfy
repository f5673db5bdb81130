/** The exclusion policy of src/index.ts: a fixed list of conventional non-source
    directories and files, each turned into a negated glob, followed by at most one
    glob the caller supplies. */
module Exclusions {
  import opened Common

  /** `DEFAULT_EXCLUDE_DIRS` (src/index.ts:22-111), in source order, written in rows of
      eleven; several entries occur twice. */
  const DefaultExcludeDirs: seq<string> :=
    ["node_modules", "dist", "build", "out", "target", "bin", "obj", "Debug", "Release",
      "coverage", ".nyc_output"]
  + [".cache", ".tmp", ".temp", "logs", "log", ".git", ".svn", ".hg", ".idea", ".vscode",
      ".vs"]
  + ["*.swp", "*.swo", "*~", ".DS_Store", "Thumbs.db", ".env", ".env.local",
      ".env.development", ".env.test", ".env.production", "vendor"]
  + ["vendors", "bower_components", "jspm_packages", "flow-typed", ".next", ".nuxt",
      ".vuepress", ".docusaurus", ".docz", ".storybook", "__pycache__"]
  + [".pytest_cache", ".mypy_cache", "site-packages", "venv", "env", ".venv", ".env",
      "node_modules", "Pods", "Carthage", "Checkouts"]
  + ["DerivedData", "build", ".gradle", ".idea", ".vs", "*.pyc", "*.pyo", "*.class",
      "*.jar", "*.war", "*.ear"]
  + ["*.dll", "*.exe", "*.so", "*.dylib", "*.a", "*.lib", "*.o", "*.obj", "*.bin",
      "*.dat", "*.db"]
  + ["*.sqlite", "*.log", "*.tmp", "*.temp", "*.bak", "*.backup", "*.swp", "*.swo", "*~",
      ".DS_Store", "Thumbs.db"]

  /** Each entry with a leading '!', which ripgrep reads as "exclude". */
  function Negated(dirs: seq<string>): (r: seq<string>)
    ensures |r| == |dirs|
    ensures forall i :: 0 <= i < |dirs| ==> r[i] == "!" + dirs[i]
  {
    seq(|dirs|, i requires 0 <= i < |dirs| => "!" + dirs[i])
  }

  /** The patterns `buildExcludePatterns` returns: every built-in entry, then the
      caller's glob when it is a non-empty string. */
  function ExcludePatterns(userExclude: Option<string>): (r: seq<string>)
    ensures Negated(DefaultExcludeDirs) <= r
    ensures |r| - |DefaultExcludeDirs| == if NonEmpty(userExclude) then 1 else 0
  {
    Negated(DefaultExcludeDirs) + (if NonEmpty(userExclude) then ["!" + userExclude.value] else [])
  }

  /** The `forEach` of `buildExcludePatterns`: one negated pattern pushed per entry. */
  method PushNegated(dirs: seq<string>) returns (patterns: seq<string>)
    ensures patterns == Negated(dirs)
  {
    patterns := [];
    var i := 0;
    while i < |dirs|
      invariant 0 <= i <= |dirs|
      invariant patterns == Negated(dirs[..i])
    {
      patterns := patterns + ["!" + dirs[i]];
      i := i + 1;
    }
    assert dirs[..i] == dirs;
  }

  /** `buildExcludePatterns`: the built-in patterns, then the caller's. */
  method BuildExcludePatterns(userExclude: Option<string>) returns (patterns: seq<string>)
    ensures patterns == ExcludePatterns(userExclude)
  {
    patterns := PushNegated(DefaultExcludeDirs);
    if NonEmpty(userExclude) {
      patterns := patterns + ["!" + userExclude.value];
    }
  }

  /** One pattern per built-in entry, in list order, then exactly one for a non-empty
      caller glob and none otherwise (src/index.ts:114-128). */
  lemma ExcludePatternsShape(userExclude: Option<string>)
    ensures var p := ExcludePatterns(userExclude);
      |p| == |DefaultExcludeDirs| + (if NonEmpty(userExclude) then 1 else 0)
      && (forall i :: 0 <= i < |DefaultExcludeDirs| ==> p[i] == "!" + DefaultExcludeDirs[i])
      && (NonEmpty(userExclude) ==> p[|DefaultExcludeDirs|] == "!" + userExclude.value)
  {
  }

  /** The built-in list has 88 entries and is not deduplicated: "node_modules",
      "build" and ".env" each appear twice, and each copy gives its own pattern. */
  lemma BuiltInsKeepDuplicates(userExclude: Option<string>)
    ensures |DefaultExcludeDirs| == 88
    ensures DefaultExcludeDirs[0] == DefaultExcludeDirs[51] == "node_modules"
    ensures DefaultExcludeDirs[2] == DefaultExcludeDirs[56] == "build"
    ensures DefaultExcludeDirs[27] == DefaultExcludeDirs[50] == ".env"
    ensures var p := ExcludePatterns(userExclude);
      |p| >= 88 && p[0] == p[51] && p[2] == p[56] && p[27] == p[50]
  {
  }

  /** The caller's glob is additive: the built-ins always come first and unchanged, and
      an empty or missing glob adds nothing. */
  lemma UserExcludeIsAdditive(userExclude: Option<string>)
    ensures NonEmpty(userExclude) ==> ExcludePatterns(userExclude) == ExcludePatterns(None) + ["!" + userExclude.value]
    ensures !NonEmpty(userExclude) ==> ExcludePatterns(userExclude) == ExcludePatterns(None)
    ensures ExcludePatterns(None) <= ExcludePatterns(userExclude)
  {
    assert ExcludePatterns(None) == Negated(DefaultExcludeDirs);
  }

  /** Every pattern is negated. */
  lemma AllPatternsNegated(userExclude: Option<string>)
    ensures forall i :: 0 <= i < |ExcludePatterns(userExclude)| ==> ExcludePatterns(userExclude)[i][0] == '!'
  {
  }
}
