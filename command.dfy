/** The argument compiler `buildCommand` (src/index.ts:258-367): a request record becomes
    the argument vector of one ripgrep run. The order is fixed: "rg", a "-g" pair per
    exclusion glob, the switches, the numeric limits, the value pairs, the sort switches,
    and last the pattern and the search target. */
module CommandBuilder {
  import opened Common
  import opened SearchArgs
  import opened Exclusions

  /** `flag` when `on`. */
  function Switch(on: bool, flag: string): (r: seq<string>)
  {
    if on then [flag] else []
  }

  /** `flag` and the decimal text of a number that is present and not 0. */
  function TruthyNumber(flag: string, n: Option<int>): (r: seq<string>)
  {
    if NonZero(n) then [flag, IntToString(n.value)] else []
  }

  /** `flag` and the decimal text of a number that is present, 0 included. */
  function DefinedNumber(flag: string, n: Option<int>): (r: seq<string>)
  {
    if n.Some? then [flag, IntToString(n.value)] else []
  }

  /** `flag` and a text that is present and not empty. */
  function TruthyValue(flag: string, v: Option<string>): (r: seq<string>)
  {
    if NonEmpty(v) then [flag, v.value] else []
  }

  /** `flag` and a text that is present, the empty text included. */
  function DefinedValue(flag: string, v: Option<string>): (r: seq<string>)
  {
    if v.Some? then [flag, v.value] else []
  }

  /** "-g" before each exclusion glob, in order. */
  function GlobPairs(globs: seq<string>): (r: seq<string>)
    ensures |r| == 2 * |globs|
  {
    if globs == [] then [] else GlobPairs(globs[..|globs| - 1]) + ["-g", globs[|globs| - 1]]
  }

  lemma {:induction false} GlobPairsAt(globs: seq<string>)
    ensures forall i :: 0 <= i < |globs| ==>
      GlobPairs(globs)[2 * i] == "-g" && GlobPairs(globs)[2 * i + 1] == globs[i]
  {
    if globs != [] {
      var init := globs[..|globs| - 1];
      GlobPairsAt(init);
      forall i | 0 <= i < |globs|
        ensures GlobPairs(globs)[2 * i] == "-g" && GlobPairs(globs)[2 * i + 1] == globs[i]
      {
        if i < |init| {
          assert globs[i] == init[i];
        }
      }
    }
  }

  /** Case, word and fixed-string switches (src/index.ts:267-271). Two fields lead to
      "-w" and two to "-F". */
  function PatternSwitches(a: Args, cmd: seq<string>): (r: seq<string>)
    ensures cmd <= r
  {
    cmd +
    Switch(IsFalse(a.case_sensitive), "-i") +
    Switch(IsTrue(a.word_boundaries), "-w") +
    Switch(IsTrue(a.whole_word), "-w") +
    Switch(IsFalse(a.regex), "-F") +
    Switch(IsTrue(a.literal), "-F")
  }

  /** Multiline and output-kind switches (src/index.ts:272-276). */
  function OutputSwitches(a: Args, cmd: seq<string>): (r: seq<string>)
    ensures cmd <= r
  {
    cmd +
    Switch(IsTrue(a.multiline), "-U") +
    Switch(IsTrue(a.count), "-c") +
    Switch(IsTrue(a.files_with_matches), "-l") +
    Switch(IsTrue(a.list_files), "--files") +
    Switch(IsTrue(a.file_types), "--type-list")
  }

  /** Ignore-file, output-format and position switches (src/index.ts:277-292). */
  function FilterSwitches(a: Args, cmd: seq<string>): (r: seq<string>)
    ensures cmd <= r
  {
    cmd +
    Switch(IsTrue(a.no_ignore), "--no-ignore") +
    Switch(IsTrue(a.no_ignore_parent), "--no-ignore-parent") +
    Switch(IsTrue(a.no_ignore_vcs), "--no-ignore-vcs") +
    Switch(IsTrue(a.hidden), "--hidden") +
    Switch(IsTrue(a.no_heading), "--no-heading") +
    Switch(IsTrue(a.no_line_number), "-N") +
    Switch(IsTrue(a.no_column), "--no-column") +
    Switch(IsTrue(a.no_filename), "--no-filename") +
    Switch(IsTrue(a.no_messages), "--no-messages") +
    Switch(IsTrue(a.pretty), "--pretty") +
    Switch(IsTrue(a.vimgrep), "--vimgrep") +
    Switch(IsTrue(a.with_filename), "--with-filename") +
    Switch(IsTrue(a.line_number), "-n") +
    Switch(IsTrue(a.column), "--column") +
    Switch(IsTrue(a.only_matching), "-o") +
    Switch(IsTrue(a.byte_offset), "--byte-offset")
  }

  /** Unrestricted and symlink-following switches (src/index.ts:293-295). Two fields
      lead to "-L". */
  function FollowSwitches(a: Args, cmd: seq<string>): (r: seq<string>)
    ensures cmd <= r
  {
    cmd +
    Switch(IsTrue(a.unrestricted), "-u") +
    Switch(IsTrue(a.dereference_recursive), "-L") +
    Switch(IsTrue(a.follow), "-L")
  }

  /** Traversal, engine and encoding switches (src/index.ts:296-307). */
  function EngineSwitches(a: Args, cmd: seq<string>): (r: seq<string>)
    ensures cmd <= r
  {
    cmd +
    Switch(IsTrue(a.one_file_system), "--one-file-system") +
    Switch(IsTrue(a.require_git), "--require-git") +
    Switch(IsTrue(a.pass_through), "--passthru") +
    Switch(IsTrue(a.auto_hybrid_regex), "--auto-hybrid-regex") +
    Switch(IsTrue(a.hyper_scan), "--hyper-scan") +
    Switch(IsTrue(a.pcre2), "--pcre2") +
    Switch(IsTrue(a.no_pcre2_unicode), "--no-pcre2-unicode") +
    Switch(IsTrue(a.no_unicode), "--no-unicode") +
    Switch(IsTrue(a.no_encoding), "--no-encoding") +
    Switch(IsTrue(a.no_mmap), "--no-mmap") +
    Switch(IsTrue(a.no_pre), "--no-pre") +
    Switch(IsTrue(a.no_jit), "--no-jit")
  }

  /** Numeric limits guarded by truthiness: 0 emits nothing (src/index.ts:308-311). */
  function DepthLimits(a: Args, cmd: seq<string>): (r: seq<string>)
    ensures cmd <= r
  {
    cmd +
    TruthyNumber("--threads", a.threads) +
    TruthyNumber("--depth", a.depth) +
    TruthyNumber("--mindepth", a.min_depth) +
    TruthyNumber("--maxdepth", a.max_depth)
  }

  /** Glob and memory-map switches and the encoding value (src/index.ts:312-319). */
  function GlobSwitches(a: Args, cmd: seq<string>): (r: seq<string>)
    ensures cmd <= r
  {
    cmd +
    Switch(IsTrue(a.glob_case_insensitive), "--glob-case-insensitive") +
    Switch(IsTrue(a.no_glob), "--no-glob") +
    Switch(IsTrue(a.no_pre_glob), "--no-pre-glob") +
    Switch(IsTrue(a.no_post_glob), "--no-post-glob") +
    Switch(IsTrue(a.no_pre_grep_glob), "--no-pre-grep-glob") +
    Switch(IsTrue(a.no_post_grep_glob), "--no-post-grep-glob") +
    Switch(IsTrue(a.mmap), "--mmap") +
    TruthyValue("--encoding", a.encoding)
  }

  /** Values guarded by `!== undefined` (0 and "" are emitted), except `max_filesize`, which is guarded by truthiness (src/index.ts:321-327). */
  function DefinedValues(a: Args, cmd: seq<string>): (r: seq<string>)
    ensures cmd <= r
  {
    cmd +
    DefinedNumber("-C", a.context) +
    DefinedNumber("-B", a.before_context) +
    DefinedNumber("-A", a.after_context) +
    DefinedNumber("--max-columns", a.max_columns) +
    TruthyValue("--max-filesize", a.max_filesize) +
    DefinedNumber("--max-count", a.max_count) +
    DefinedValue("--replace", a.replace)
  }

  /** Globs, file types, preprocessors and field separators, each guarded by truthiness (src/index.ts:329-344). */
  function ValuePairs(a: Args, cmd: seq<string>): (r: seq<string>)
    ensures cmd <= r
  {
    cmd +
    TruthyValue("-g", a.include_glob) +
    TruthyValue("-t", a.file_type) +
    TruthyValue("-t", a.type_name) +
    TruthyValue("--iglob", a.iglob) +
    TruthyValue("--glob", a.glob) +
    TruthyValue("--pre", a.pre) +
    TruthyValue("--post", a.post) +
    TruthyValue("--pre-glob", a.pre_glob) +
    TruthyValue("--post-glob", a.post_glob) +
    TruthyValue("--pre-grep", a.pre_grep) +
    TruthyValue("--post-grep", a.post_grep) +
    TruthyValue("--pre-grep-glob", a.pre_grep_glob) +
    TruthyValue("--post-grep-glob", a.post_grep_glob) +
    TruthyValue("--field-context-separator", a.field_context_separator) +
    TruthyValue("--field-match-separator", a.field_match_separator) +
    TruthyValue("--field-file-separator", a.field_file_separator)
  }

  /** Sort switches (src/index.ts:346-347). */
  function SortSwitches(a: Args, cmd: seq<string>): (r: seq<string>)
    ensures cmd <= r
  {
    cmd +
    Switch(IsTrue(a.sort_files), "--sort-files") +
    Switch(IsTrue(a.sort_r), "--sortr")
  }

  /** The directory to search: `path` if it is not empty, otherwise `root` if it is not
      empty, otherwise "." (src/index.ts:351-360). */
  function SearchTarget(a: Args): (t: string)
    ensures t != ""
    ensures NonEmpty(a.path) ==> t == a.path.value
    ensures !NonEmpty(a.path) && NonEmpty(a.root) ==> t == a.root.value
    ensures !NonEmpty(a.path) && !NonEmpty(a.root) ==> t == "."
  {
    if NonEmpty(a.path) then a.path.value
    else if NonEmpty(a.root) then a.root.value
    else "."
  }

  /** "rg" and the "-g" pair of every exclusion glob (src/index.ts:259-265). */
  function Excluded(excludePatterns: seq<string>): (r: seq<string>)
    ensures |r| == 2 * |excludePatterns| + 1 && r[0] == "rg"
  {
    ["rg"] + GlobPairs(excludePatterns)
  }

  /** The option tokens, section by section after the given leading part; each section
      function appends its tokens to the vector built so far (src/index.ts:267-347), so no
      section removes or reorders the leading part. */
  function Options(a: Args, excluded: seq<string>): (r: seq<string>)
    ensures excluded <= r
  {
    var matched := OutputSwitches(a, PatternSwitches(a, excluded));
    var switched := EngineSwitches(a, FollowSwitches(a, FilterSwitches(a, matched)));
    SortSwitches(a, ValuePairs(a, DefinedValues(a, GlobSwitches(a, DepthLimits(a, switched)))))
  }

  /** The whole argument vector for the request `a`, given the globs that
      `buildExcludePatterns(a.exclude)` returns: the options, then the pattern and the
      search target. */
  function Command(a: Args, excludePatterns: seq<string>): (r: seq<string>)
    ensures Excluded(excludePatterns) <= r
    ensures |r| >= 3 && r[|r| - 2] == a.pattern && r[|r| - 1] == SearchTarget(a)
  {
    Options(a, Excluded(excludePatterns)) + [a.pattern, SearchTarget(a)]
  }

  /** The `forEach` of `buildCommand` over the exclusion globs (src/index.ts:262-265). */
  method PushExclusions(start: seq<string>, excludePatterns: seq<string>) returns (cmd: seq<string>)
    ensures cmd == start + GlobPairs(excludePatterns)
  {
    cmd := start;
    var i := 0;
    while i < |excludePatterns|
      invariant 0 <= i <= |excludePatterns|
      invariant cmd == start + GlobPairs(excludePatterns[..i])
    {
      assert excludePatterns[..i + 1][..i] == excludePatterns[..i];
      cmd := cmd + ["-g", excludePatterns[i]];
      i := i + 1;
    }
    assert excludePatterns[..i] == excludePatterns;
  }

  /** The search-path choice of `buildCommand` (src/index.ts:351-360). */
  method ChooseSearchPath(a: Args) returns (searchPath: string)
    ensures searchPath == SearchTarget(a)
  {
    searchPath := "";
    if NonEmpty(a.path) {
      searchPath := a.path.value;
    } else if NonEmpty(a.root) {
      searchPath := a.root.value;
    } else {
      searchPath := ".";
    }
  }

  /** `buildCommand(args)`: pushes the tokens one guarded statement at a time. */
  method BuildCommand(a: Args) returns (cmd: seq<string>)
    ensures cmd == Command(a, ExcludePatterns(a.exclude))
  {
    cmd := ["rg"];
    var excludePatterns := BuildExcludePatterns(a.exclude);
    cmd := PushExclusions(cmd, excludePatterns);
    ghost var excluded := cmd;
    assert excluded == Excluded(excludePatterns);
    cmd := cmd + Switch(IsFalse(a.case_sensitive), "-i");
    cmd := cmd + Switch(IsTrue(a.word_boundaries), "-w");
    cmd := cmd + Switch(IsTrue(a.whole_word), "-w");
    cmd := cmd + Switch(IsFalse(a.regex), "-F");
    cmd := cmd + Switch(IsTrue(a.literal), "-F");
    ghost var done := PatternSwitches(a, excluded);
    assert cmd == done;
    cmd := cmd + Switch(IsTrue(a.multiline), "-U");
    cmd := cmd + Switch(IsTrue(a.count), "-c");
    cmd := cmd + Switch(IsTrue(a.files_with_matches), "-l");
    cmd := cmd + Switch(IsTrue(a.list_files), "--files");
    cmd := cmd + Switch(IsTrue(a.file_types), "--type-list");
    done := OutputSwitches(a, done);
    assert cmd == done;
    cmd := cmd + Switch(IsTrue(a.no_ignore), "--no-ignore");
    cmd := cmd + Switch(IsTrue(a.no_ignore_parent), "--no-ignore-parent");
    cmd := cmd + Switch(IsTrue(a.no_ignore_vcs), "--no-ignore-vcs");
    cmd := cmd + Switch(IsTrue(a.hidden), "--hidden");
    cmd := cmd + Switch(IsTrue(a.no_heading), "--no-heading");
    cmd := cmd + Switch(IsTrue(a.no_line_number), "-N");
    cmd := cmd + Switch(IsTrue(a.no_column), "--no-column");
    cmd := cmd + Switch(IsTrue(a.no_filename), "--no-filename");
    cmd := cmd + Switch(IsTrue(a.no_messages), "--no-messages");
    cmd := cmd + Switch(IsTrue(a.pretty), "--pretty");
    cmd := cmd + Switch(IsTrue(a.vimgrep), "--vimgrep");
    cmd := cmd + Switch(IsTrue(a.with_filename), "--with-filename");
    cmd := cmd + Switch(IsTrue(a.line_number), "-n");
    cmd := cmd + Switch(IsTrue(a.column), "--column");
    cmd := cmd + Switch(IsTrue(a.only_matching), "-o");
    cmd := cmd + Switch(IsTrue(a.byte_offset), "--byte-offset");
    done := FilterSwitches(a, done);
    assert cmd == done;
    cmd := cmd + Switch(IsTrue(a.unrestricted), "-u");
    cmd := cmd + Switch(IsTrue(a.dereference_recursive), "-L");
    cmd := cmd + Switch(IsTrue(a.follow), "-L");
    done := FollowSwitches(a, done);
    assert cmd == done;
    cmd := cmd + Switch(IsTrue(a.one_file_system), "--one-file-system");
    cmd := cmd + Switch(IsTrue(a.require_git), "--require-git");
    cmd := cmd + Switch(IsTrue(a.pass_through), "--passthru");
    cmd := cmd + Switch(IsTrue(a.auto_hybrid_regex), "--auto-hybrid-regex");
    cmd := cmd + Switch(IsTrue(a.hyper_scan), "--hyper-scan");
    cmd := cmd + Switch(IsTrue(a.pcre2), "--pcre2");
    cmd := cmd + Switch(IsTrue(a.no_pcre2_unicode), "--no-pcre2-unicode");
    cmd := cmd + Switch(IsTrue(a.no_unicode), "--no-unicode");
    cmd := cmd + Switch(IsTrue(a.no_encoding), "--no-encoding");
    cmd := cmd + Switch(IsTrue(a.no_mmap), "--no-mmap");
    cmd := cmd + Switch(IsTrue(a.no_pre), "--no-pre");
    cmd := cmd + Switch(IsTrue(a.no_jit), "--no-jit");
    done := EngineSwitches(a, done);
    assert cmd == done;
    cmd := cmd + TruthyNumber("--threads", a.threads);
    cmd := cmd + TruthyNumber("--depth", a.depth);
    cmd := cmd + TruthyNumber("--mindepth", a.min_depth);
    cmd := cmd + TruthyNumber("--maxdepth", a.max_depth);
    done := DepthLimits(a, done);
    assert cmd == done;
    cmd := cmd + Switch(IsTrue(a.glob_case_insensitive), "--glob-case-insensitive");
    cmd := cmd + Switch(IsTrue(a.no_glob), "--no-glob");
    cmd := cmd + Switch(IsTrue(a.no_pre_glob), "--no-pre-glob");
    cmd := cmd + Switch(IsTrue(a.no_post_glob), "--no-post-glob");
    cmd := cmd + Switch(IsTrue(a.no_pre_grep_glob), "--no-pre-grep-glob");
    cmd := cmd + Switch(IsTrue(a.no_post_grep_glob), "--no-post-grep-glob");
    cmd := cmd + Switch(IsTrue(a.mmap), "--mmap");
    cmd := cmd + TruthyValue("--encoding", a.encoding);
    done := GlobSwitches(a, done);
    assert cmd == done;
    cmd := cmd + DefinedNumber("-C", a.context);
    cmd := cmd + DefinedNumber("-B", a.before_context);
    cmd := cmd + DefinedNumber("-A", a.after_context);
    cmd := cmd + DefinedNumber("--max-columns", a.max_columns);
    cmd := cmd + TruthyValue("--max-filesize", a.max_filesize);
    cmd := cmd + DefinedNumber("--max-count", a.max_count);
    cmd := cmd + DefinedValue("--replace", a.replace);
    done := DefinedValues(a, done);
    assert cmd == done;
    cmd := cmd + TruthyValue("-g", a.include_glob);
    cmd := cmd + TruthyValue("-t", a.file_type);
    cmd := cmd + TruthyValue("-t", a.type_name);
    cmd := cmd + TruthyValue("--iglob", a.iglob);
    cmd := cmd + TruthyValue("--glob", a.glob);
    cmd := cmd + TruthyValue("--pre", a.pre);
    cmd := cmd + TruthyValue("--post", a.post);
    cmd := cmd + TruthyValue("--pre-glob", a.pre_glob);
    cmd := cmd + TruthyValue("--post-glob", a.post_glob);
    cmd := cmd + TruthyValue("--pre-grep", a.pre_grep);
    cmd := cmd + TruthyValue("--post-grep", a.post_grep);
    cmd := cmd + TruthyValue("--pre-grep-glob", a.pre_grep_glob);
    cmd := cmd + TruthyValue("--post-grep-glob", a.post_grep_glob);
    cmd := cmd + TruthyValue("--field-context-separator", a.field_context_separator);
    cmd := cmd + TruthyValue("--field-match-separator", a.field_match_separator);
    cmd := cmd + TruthyValue("--field-file-separator", a.field_file_separator);
    done := ValuePairs(a, done);
    assert cmd == done;
    cmd := cmd + Switch(IsTrue(a.sort_files), "--sort-files");
    cmd := cmd + Switch(IsTrue(a.sort_r), "--sortr");
    ghost var sorted := cmd;
    assert sorted == SortSwitches(a, done);
    cmd := cmd + [a.pattern];
    var searchPath := ChooseSearchPath(a);
    if searchPath != "" {
      cmd := cmd + [searchPath];
    }
    assert sorted + [a.pattern] + [SearchTarget(a)] == sorted + [a.pattern, SearchTarget(a)];
  }

  /** 1 for a set switch, 0 otherwise. */
  function Count(on: bool): nat {
    if on then 1 else 0
  }

  /** Any vector that starts with `Excluded(globs)` has "rg" and then a "-g" pair per
      glob. */
  lemma ExcludedPrefixAt(globs: seq<string>, cmd: seq<string>)
    requires Excluded(globs) <= cmd
    ensures |cmd| >= 2 * |globs| + 1 && cmd[0] == "rg"
    ensures forall i :: 0 <= i < |globs| ==> cmd[2 * i + 1] == "-g" && cmd[2 * i + 2] == globs[i]
  {
    var excluded := Excluded(globs);
    GlobPairsAt(globs);
    forall i | 0 <= i < |globs|
      ensures cmd[2 * i + 1] == "-g" && cmd[2 * i + 2] == globs[i]
    {
      assert cmd[2 * i + 1] == excluded[2 * i + 1] == GlobPairs(globs)[2 * i];
      assert cmd[2 * i + 2] == excluded[2 * i + 2] == GlobPairs(globs)[2 * i + 1];
    }
  }

  /** The vector starts with "rg" and then, for every exclusion glob in order, "-g" and
      the glob (src/index.ts:259-265). */
  lemma CommandStartsWithExclusionPairs(a: Args, globs: seq<string>)
    ensures var cmd := Command(a, globs);
      |cmd| >= 2 * |globs| + 3 && cmd[0] == "rg"
      && forall i :: 0 <= i < |globs| ==> cmd[2 * i + 1] == "-g" && cmd[2 * i + 2] == globs[i]
  {
    var options := Options(a, Excluded(globs));
    assert Command(a, globs) == options + [a.pattern, SearchTarget(a)];
    ExcludedPrefixAt(globs, Command(a, globs));
  }

  /** `word_boundaries` and `whole_word` each add their own "-w" (src/index.ts:268-269). */
  lemma RedundantWordSwitchesEachEmit(a: Args, c: seq<string>)
    ensures var r := PatternSwitches(a, c);
      multiset(r)["-w"] == multiset(c)["-w"] + Count(IsTrue(a.word_boundaries)) + Count(IsTrue(a.whole_word))
  {
  }

  /** `regex === false` and `literal` each add their own "-F" (src/index.ts:270-271). */
  lemma RedundantFixedSwitchesEachEmit(a: Args, c: seq<string>)
    ensures var r := PatternSwitches(a, c);
      multiset(r)["-F"] == multiset(c)["-F"] + Count(IsFalse(a.regex)) + Count(IsTrue(a.literal))
  {
  }

  /** `dereference_recursive` and `follow` each add their own "-L" (src/index.ts:294-295). */
  lemma RedundantFollowSwitchesEachEmit(a: Args, c: seq<string>)
    ensures var r := FollowSwitches(a, c);
      multiset(r)["-L"] == multiset(c)["-L"] + Count(IsTrue(a.dereference_recursive)) + Count(IsTrue(a.follow))
  {
  }

  /** `threads` is guarded by truthiness: 0 emits nothing, as if it were absent
      (src/index.ts:308). */
  lemma ZeroThreadsEmitNothing(a: Args, globs: seq<string>)
    ensures Command(a.(threads := Some(0)), globs) == Command(a.(threads := None), globs)
  {
  }

  /** The same for `depth` (src/index.ts:309). */
  lemma ZeroDepthEmitsNothing(a: Args, globs: seq<string>)
    ensures Command(a.(depth := Some(0)), globs) == Command(a.(depth := None), globs)
  {
  }

  /** The same for `min_depth` (src/index.ts:310). */
  lemma ZeroMinDepthEmitsNothing(a: Args, globs: seq<string>)
    ensures Command(a.(min_depth := Some(0)), globs) == Command(a.(min_depth := None), globs)
  {
  }

  /** The same for `max_depth` (src/index.ts:311). */
  lemma ZeroMaxDepthEmitsNothing(a: Args, globs: seq<string>)
    ensures Command(a.(max_depth := Some(0)), globs) == Command(a.(max_depth := None), globs)
  {
  }

  /** The two guards differ exactly on 0 and "": a truthiness guard drops them, an
      `!== undefined` guard emits them (src/index.ts:308, 321). */
  lemma GuardsOnZeroAndEmpty(flag: string)
    ensures TruthyNumber(flag, Some(0)) == [] && DefinedNumber(flag, Some(0)) == [flag, "0"]
    ensures TruthyValue(flag, Some("")) == [] && DefinedValue(flag, Some("")) == [flag, ""]
    ensures forall n: int :: n != 0 ==> TruthyNumber(flag, Some(n)) == DefinedNumber(flag, Some(n))
    ensures forall v: string :: v != "" ==> TruthyValue(flag, Some(v)) == DefinedValue(flag, Some(v))
  {
    assert IntToString(0) == "0";
  }

  /** `context: 0` still emits "-C" and "0", right where the section starts
      (src/index.ts:321). */
  lemma ZeroContextEmitted(a: Args, c: seq<string>)
    ensures DefinedValues(a.(context := Some(0)), c) == DefinedValues(a.(context := None), c + ["-C", "0"])
  {
    assert IntToString(0) == "0";
  }

  /** 0 for the other `!== undefined` limits is emitted too: in any request, `before_context`,
      `after_context`, `max_columns` and `max_count` set to 0 each give their flag and "0" in
      their place in the section (src/index.ts:322-326). */
  lemma ZeroLimitsEmitted(a: Args, c: seq<string>)
    ensures DefinedValues(a.(before_context := Some(0)), c)
         == c + DefinedNumber("-C", a.context) + ["-B", "0"]
            + DefinedNumber("-A", a.after_context) + DefinedNumber("--max-columns", a.max_columns)
            + TruthyValue("--max-filesize", a.max_filesize) + DefinedNumber("--max-count", a.max_count)
            + DefinedValue("--replace", a.replace)
    ensures DefinedValues(a.(after_context := Some(0)), c)
         == c + DefinedNumber("-C", a.context) + DefinedNumber("-B", a.before_context) + ["-A", "0"]
            + DefinedNumber("--max-columns", a.max_columns)
            + TruthyValue("--max-filesize", a.max_filesize) + DefinedNumber("--max-count", a.max_count)
            + DefinedValue("--replace", a.replace)
    ensures DefinedValues(a.(max_columns := Some(0)), c)
         == c + DefinedNumber("-C", a.context) + DefinedNumber("-B", a.before_context)
            + DefinedNumber("-A", a.after_context) + ["--max-columns", "0"]
            + TruthyValue("--max-filesize", a.max_filesize) + DefinedNumber("--max-count", a.max_count)
            + DefinedValue("--replace", a.replace)
    ensures DefinedValues(a.(max_count := Some(0)), c)
         == c + DefinedNumber("-C", a.context) + DefinedNumber("-B", a.before_context)
            + DefinedNumber("-A", a.after_context) + DefinedNumber("--max-columns", a.max_columns)
            + TruthyValue("--max-filesize", a.max_filesize) + ["--max-count", "0"]
            + DefinedValue("--replace", a.replace)
  {
    assert IntToString(0) == "0";
  }

  /** `replace: ""` still emits "--replace" and the empty text, at the end of the section
      (src/index.ts:327). */
  lemma EmptyReplaceEmitted(a: Args, c: seq<string>)
    ensures DefinedValues(a.(replace := Some("")), c) == DefinedValues(a.(replace := None), c) + ["--replace", ""]
  {
  }

  /** `max_filesize`, unlike its neighbours, is guarded by truthiness: "" emits nothing
      (src/index.ts:325). */
  lemma EmptyMaxFilesizeEmitsNothing(a: Args, globs: seq<string>)
    ensures Command(a.(max_filesize := Some("")), globs) == Command(a.(max_filesize := None), globs)
  {
  }

  /** Fields that `buildCommand` never reads do not change the vector: `max_matches` and
      the four `*_case_insensitive` preprocessor switches (src/index.ts:258-367). */
  lemma UntranslatedFieldsIgnored(a: Args, globs: seq<string>, m: Option<int>,
                                  b1: Option<bool>, b2: Option<bool>, b3: Option<bool>, b4: Option<bool>)
    ensures Command(a.(max_matches := m, pre_glob_case_insensitive := b1, post_glob_case_insensitive := b2,
                       pre_grep_glob_case_insensitive := b3, post_grep_glob_case_insensitive := b4), globs)
         == Command(a, globs)
  {
  }
}
