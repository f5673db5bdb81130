/** The request record that the argument compiler consumes (`ArgsSchema`,
    src/index.ts:147-235). Every field but `pattern` is optional; `None` stands for an
    absent (`undefined`) field. Two fields are renamed because their names are Dafny
    keywords: `include` is `include_glob` and `type` is `type_name`. Numbers are unbounded
    integers: JavaScript's doubles, exact only up to 2^53 and printed in exponent form from
    10^21 on, are not modelled. */
module SearchArgs {
  import opened Common

  datatype Args = Args(
    pattern: string,
    root: Option<string>,
    path: Option<string>,
    include_glob: Option<string>,
    exclude: Option<string>,
    context: Option<int>,
    max_matches: Option<int>,
    case_sensitive: Option<bool>,
    word_boundaries: Option<bool>,
    whole_word: Option<bool>,
    regex: Option<bool>,
    literal: Option<bool>,
    file_type: Option<string>,
    type_name: Option<string>,
    multiline: Option<bool>,
    count: Option<bool>,
    files_with_matches: Option<bool>,
    list_files: Option<bool>,
    file_types: Option<bool>,
    before_context: Option<int>,
    after_context: Option<int>,
    max_columns: Option<int>,
    max_filesize: Option<string>,
    sort_files: Option<bool>,
    sort_r: Option<bool>,
    no_ignore: Option<bool>,
    no_ignore_parent: Option<bool>,
    no_ignore_vcs: Option<bool>,
    hidden: Option<bool>,
    no_heading: Option<bool>,
    no_line_number: Option<bool>,
    no_column: Option<bool>,
    no_filename: Option<bool>,
    no_messages: Option<bool>,
    pretty: Option<bool>,
    vimgrep: Option<bool>,
    with_filename: Option<bool>,
    line_number: Option<bool>,
    column: Option<bool>,
    field_context_separator: Option<string>,
    field_match_separator: Option<string>,
    field_file_separator: Option<string>,
    only_matching: Option<bool>,
    replace: Option<string>,
    max_count: Option<int>,
    byte_offset: Option<bool>,
    unrestricted: Option<bool>,
    dereference_recursive: Option<bool>,
    follow: Option<bool>,
    one_file_system: Option<bool>,
    require_git: Option<bool>,
    pass_through: Option<bool>,
    auto_hybrid_regex: Option<bool>,
    hyper_scan: Option<bool>,
    pcre2: Option<bool>,
    no_pcre2_unicode: Option<bool>,
    no_unicode: Option<bool>,
    no_encoding: Option<bool>,
    no_mmap: Option<bool>,
    no_pre: Option<bool>,
    no_jit: Option<bool>,
    threads: Option<int>,
    depth: Option<int>,
    min_depth: Option<int>,
    max_depth: Option<int>,
    iglob: Option<string>,
    glob: Option<string>,
    glob_case_insensitive: Option<bool>,
    no_glob: Option<bool>,
    pre: Option<string>,
    post: Option<string>,
    pre_glob: Option<string>,
    post_glob: Option<string>,
    pre_glob_case_insensitive: Option<bool>,
    post_glob_case_insensitive: Option<bool>,
    no_pre_glob: Option<bool>,
    no_post_glob: Option<bool>,
    pre_grep: Option<string>,
    post_grep: Option<string>,
    pre_grep_glob: Option<string>,
    post_grep_glob: Option<string>,
    pre_grep_glob_case_insensitive: Option<bool>,
    post_grep_glob_case_insensitive: Option<bool>,
    no_pre_grep_glob: Option<bool>,
    no_post_grep_glob: Option<bool>,
    encoding: Option<string>,
    mmap: Option<bool>
  )

  /** A request that sets nothing but an empty pattern; the tool handlers build their
      requests from it by record update. */
  const EmptyArgs: Args := Args(
    "", None, None, None, None, None, None, None, None, None,
    None, None, None, None, None, None, None, None, None, None,
    None, None, None, None, None, None, None, None, None, None,
    None, None, None, None, None, None, None, None, None, None,
    None, None, None, None, None, None, None, None, None, None,
    None, None, None, None, None, None, None, None, None, None,
    None, None, None, None, None, None, None, None, None, None,
    None, None, None, None, None, None, None, None, None, None,
    None, None, None, None, None, None, None)
}
