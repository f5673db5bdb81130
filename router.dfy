/** The `CallToolRequestSchema` handler (src/index.ts:575-662): a tool name and the raw
    arguments become one request record, which runs through `executeRipgrep`; the outcome
    comes back as a text envelope, marked as an error when anything was thrown. */
module Router {
  import opened Common
  import opened PosixPath
  import opened Confinement
  import opened SearchArgs
  import opened Execution
  import opened Pipeline

  /** The response: one text item, and `isError: true` on the error path. */
  datatype Envelope = Envelope(text: string, isError: bool)

  /** `{...args}` with the default root filled in only when the caller's root is falsy
      and the default itself is truthy (src/index.ts:582-585). */
  function MergeDefaultRoot(raw: Args, defaultRoot: Option<string>): (r: Args)
    ensures NonEmpty(raw.root) ==> r == raw
    ensures !NonEmpty(defaultRoot) ==> r == raw
    ensures NonEmpty(defaultRoot) && !NonEmpty(raw.root) ==> r == raw.(root := defaultRoot)
  {
    if NonEmpty(defaultRoot) && !NonEmpty(raw.root) then raw.(root := defaultRoot) else raw
  }

  /** A request with every field absent. */
  function Blank(pattern: string): (r: Args)
    ensures r.pattern == pattern && r == EmptyArgs.(pattern := pattern)
  {
    EmptyArgs.(pattern := pattern)
  }

  /** `search`: ten fields copied, `max_matches` defaulting to 100 when falsy
      (src/index.ts:588-601). A missing raw pattern and "" are the same (`|| ''`). */
  function SearchRequest(m: Args): Args {
    Blank(m.pattern).(root := m.root, path := m.path, include_glob := m.include_glob,
      exclude := m.exclude, context := m.context,
      max_matches := if NonZero(m.max_matches) then m.max_matches else Some(100),
      case_sensitive := m.case_sensitive, word_boundaries := m.word_boundaries,
      file_type := m.file_type)
  }

  /** `count-matches`: seven fields copied and `count: true` (src/index.ts:607-618). */
  function CountRequest(m: Args): Args {
    Blank(m.pattern).(root := m.root, path := m.path, include_glob := m.include_glob,
      exclude := m.exclude, case_sensitive := m.case_sensitive, file_type := m.file_type,
      count := Some(true))
  }

  /** `list-files`: an empty pattern, the scope fields and `list_files: true`
      (src/index.ts:620-630). */
  function ListFilesRequest(m: Args): Args {
    Blank("").(root := m.root, path := m.path, include_glob := m.include_glob,
      exclude := m.exclude, file_type := m.file_type, list_files := Some(true))
  }

  /** `list-file-types`: an empty pattern and `file_types: true`, nothing else
      (src/index.ts:632-637). */
  function ListFileTypesRequest(): Args {
    Blank("").(file_types := Some(true))
  }

  /** The `switch (name)` (src/index.ts:587-641): the request for a known tool, or the
      "Unknown tool" error. `advanced-search` passes the merged arguments as they are. */
  function BuildRequest(name: string, merged: Args): (r: Result<Args>)
    ensures r.Err? <==> name !in {"search", "advanced-search", "count-matches", "list-files", "list-file-types"}
    ensures r.Err? ==> r.message == "Unknown tool: " + name
  {
    if name == "search" then Ok(SearchRequest(merged))
    else if name == "advanced-search" then Ok(merged)
    else if name == "count-matches" then Ok(CountRequest(merged))
    else if name == "list-files" then Ok(ListFilesRequest(merged))
    else if name == "list-file-types" then Ok(ListFileTypesRequest())
    else Err("Unknown tool: " + name)
  }

  /** The `catch` block (src/index.ts:651-660): the thrown message behind "Error: ". */
  function ErrorEnvelope(message: string): (r: Envelope)
    ensures r.isError && StartsWith(r.text, "Error: ") && r.text[|"Error: "|..] == message
  {
    Envelope("Error: " + message, true)
  }

  /** The whole handler, given the default root, the working directory and the callbacks
      of the process it would spawn. `None` is a response still pending because the
      process never settled the promise. */
  function HandleCall(name: string, raw: Args, defaultRoot: Option<string>, cwd: seq<string>,
                      events: seq<Event>): (r: Option<Envelope>)
    ensures r.Some? && r.value.isError ==> StartsWith(r.value.text, "Error: ")
  {
    match BuildRequest(name, MergeDefaultRoot(raw, defaultRoot))
    case Err(m) => Some(ErrorEnvelope(m))
    case Ok(request) =>
      match Execute(cwd, request, events)
      case None => None
      case Some(Resolved(text)) => Some(Envelope(text, false))
      case Some(Rejected(m)) => Some(ErrorEnvelope(m))
  }

  /** An unknown tool name gives an error envelope and never runs anything
      (src/index.ts:639-640, 651-660). */
  lemma UnknownToolRejected(name: string, raw: Args, defaultRoot: Option<string>, cwd: seq<string>,
                            events: seq<Event>)
    requires name !in {"search", "advanced-search", "count-matches", "list-files", "list-file-types"}
    ensures HandleCall(name, raw, defaultRoot, cwd, events) == Some(Envelope("Error: Unknown tool: " + name, true))
  {
    assert "Error: " + ("Unknown tool: " + name) == "Error: Unknown tool: " + name;
  }

  /** A truthy root in the request makes the default root irrelevant. */
  lemma DefaultRootIgnoredWhenRootGiven(name: string, raw: Args, d1: Option<string>, d2: Option<string>,
                                        cwd: seq<string>, events: seq<Event>)
    requires NonEmpty(raw.root)
    ensures HandleCall(name, raw, d1, cwd, events) == HandleCall(name, raw, d2, cwd, events)
  {
  }

  /** Without a truthy root in the request, a truthy default root is used as the root,
      exactly as if the caller had sent it. */
  lemma DefaultRootActsAsRoot(name: string, raw: Args, defaultRoot: Option<string>,
                              cwd: seq<string>, events: seq<Event>)
    requires NonEmpty(defaultRoot) && !NonEmpty(raw.root)
    ensures HandleCall(name, raw, defaultRoot, cwd, events)
         == HandleCall(name, raw.(root := defaultRoot), None, cwd, events)
  {
  }

  /** `list-file-types` drops every scope field, the default root included: the request
      is the same whatever the caller sent (src/index.ts:632-637). */
  lemma ListFileTypesIgnoresScope(raw1: Args, raw2: Args, d1: Option<string>, d2: Option<string>)
    ensures BuildRequest("list-file-types", MergeDefaultRoot(raw1, d1))
         == BuildRequest("list-file-types", MergeDefaultRoot(raw2, d2))
    ensures var r := BuildRequest("list-file-types", MergeDefaultRoot(raw1, d1)).value;
      r.root == None && r.path == None && r.pattern == "" && r.file_types == Some(true)
  {
  }

  /** With no root at all, `list-file-types` is never refused by the confinement check. */
  lemma ListFileTypesNeverConfined(cwd: seq<string>, raw: Args, d: Option<string>)
    ensures var r := BuildRequest("list-file-types", MergeDefaultRoot(raw, d)).value;
      PreparedArgs(cwd, r) == Ok(r)
  {
    var r := BuildRequest("list-file-types", MergeDefaultRoot(raw, d)).value;
    NoRootKeepsRequest(cwd, r);
  }

  /** `count-matches` always counts and `list-files` always lists with an empty pattern,
      whatever the caller sent for those fields (src/index.ts:616, 622, 628). */
  lemma ForcedFields(raw: Args, d: Option<string>)
    ensures var m := MergeDefaultRoot(raw, d);
      BuildRequest("count-matches", m).value.count == Some(true)
      && BuildRequest("count-matches", m).value.pattern == raw.pattern
      && BuildRequest("list-files", m).value.list_files == Some(true)
      && BuildRequest("list-files", m).value.pattern == ""
  {
  }

  /** `search` defaults `max_matches` to 100 when it is missing or 0 and keeps any other
      value (src/index.ts:596). */
  lemma SearchMaxMatchesDefault(raw: Args, d: Option<string>)
    ensures var r := BuildRequest("search", MergeDefaultRoot(raw, d)).value;
      (NonZero(raw.max_matches) ==> r.max_matches == raw.max_matches)
      && (!NonZero(raw.max_matches) ==> r.max_matches == Some(100))
  {
  }

  /** `search` copies its forwarded fields from the merged arguments and drops switches
      such as `whole_word`, `regex`, `count` or `threads` (src/index.ts:588-601). */
  lemma SearchDropsOtherFields(raw: Args, d: Option<string>)
    ensures var m := MergeDefaultRoot(raw, d);
      var r := BuildRequest("search", m).value;
      r.pattern == m.pattern && r.root == m.root && r.path == m.path
      && r.include_glob == m.include_glob && r.exclude == m.exclude && r.context == m.context
      && r.case_sensitive == m.case_sensitive && r.word_boundaries == m.word_boundaries
      && r.file_type == m.file_type
      && r.whole_word == None && r.regex == None && r.literal == None && r.count == None
      && r.list_files == None && r.threads == None && r.replace == None && r.type_name == None
  {
  }

  /** `search` reads only its ten fields: two merged argument records that agree on them
      give the same request, whatever else they hold (src/index.ts:588-601). */
  lemma SearchReadsOnlyItsFields(m1: Args, m2: Args)
    requires m1.pattern == m2.pattern && m1.root == m2.root && m1.path == m2.path
    requires m1.include_glob == m2.include_glob && m1.exclude == m2.exclude
    requires m1.context == m2.context && m1.max_matches == m2.max_matches
    requires m1.case_sensitive == m2.case_sensitive && m1.word_boundaries == m2.word_boundaries
    requires m1.file_type == m2.file_type
    ensures BuildRequest("search", m1) == BuildRequest("search", m2)
  {
  }

  /** `count-matches` reads only its seven fields (src/index.ts:607-618). */
  lemma CountReadsOnlyItsFields(m1: Args, m2: Args)
    requires m1.pattern == m2.pattern && m1.root == m2.root && m1.path == m2.path
    requires m1.include_glob == m2.include_glob && m1.exclude == m2.exclude
    requires m1.case_sensitive == m2.case_sensitive && m1.file_type == m2.file_type
    ensures BuildRequest("count-matches", m1) == BuildRequest("count-matches", m2)
  {
  }

  /** `list-files` reads only its five scope fields, not even the pattern
      (src/index.ts:620-630). */
  lemma ListFilesReadsOnlyItsFields(m1: Args, m2: Args)
    requires m1.root == m2.root && m1.path == m2.path && m1.include_glob == m2.include_glob
    requires m1.exclude == m2.exclude && m1.file_type == m2.file_type
    ensures BuildRequest("list-files", m1) == BuildRequest("list-files", m2)
  {
  }

  /** `count-matches` copies its six scope and matching fields unchanged from the merged
      arguments (src/index.ts:607-618). */
  lemma CountCopiesItsFields(m: Args)
    ensures var r := BuildRequest("count-matches", m).value;
      r.root == m.root && r.path == m.path && r.include_glob == m.include_glob
      && r.exclude == m.exclude && r.case_sensitive == m.case_sensitive && r.file_type == m.file_type
  {
  }

  /** `list-files` copies its five scope fields unchanged from the merged arguments
      (src/index.ts:620-630). */
  lemma ListFilesCopiesItsFields(m: Args)
    ensures var r := BuildRequest("list-files", m).value;
      r.root == m.root && r.path == m.path && r.include_glob == m.include_glob
      && r.exclude == m.exclude && r.file_type == m.file_type
  {
  }

  /** `advanced-search` passes the merged arguments through untouched (src/index.ts:603-605). */
  lemma AdvancedSearchPassesThrough(m: Args)
    ensures BuildRequest("advanced-search", m) == Ok(m)
  {
  }

  /** A refused path reaches the caller as an error envelope carrying the confinement
      message, whichever tool forwarded the scope fields. */
  lemma OutsideRootReported(name: string, raw: Args, cwd: seq<string>, events: seq<Event>)
    requires name in {"search", "advanced-search", "count-matches", "list-files"}
    requires NonEmpty(raw.root) && NonEmpty(raw.path)
    requires !StartsWith(Render(Resolve(cwd, raw.path.value)), Render(Resolve(cwd, raw.root.value)))
    ensures HandleCall(name, raw, None, cwd, events)
         == Some(ErrorEnvelope(OutsideRootMessage(raw.path.value, raw.root.value)))
  {
    var request := BuildRequest(name, MergeDefaultRoot(raw, None)).value;
    assert request.root == raw.root && request.path == raw.path;
  }

  /** A run the process rejects (the timeout, an exit code other than 0 and 1, a spawn
      error) reaches the caller as an error envelope with the rejection message
      (src/index.ts:651-660). */
  lemma RejectedRunReported(name: string, raw: Args, d: Option<string>, cwd: seq<string>,
                            events: seq<Event>, m: string)
    requires BuildRequest(name, MergeDefaultRoot(raw, d)).Ok?
    requires Execute(cwd, BuildRequest(name, MergeDefaultRoot(raw, d)).value, events) == Some(Rejected(m))
    ensures HandleCall(name, raw, d, cwd, events) == Some(ErrorEnvelope(m))
  {
  }

  /** A successful run answers with the text the process resolved, not marked as an
      error (src/index.ts:643-650). */
  lemma ResolvedTextReturned(name: string, raw: Args, d: Option<string>, cwd: seq<string>,
                             events: seq<Event>)
    requires BuildRequest(name, MergeDefaultRoot(raw, d)).Ok?
    requires var request := BuildRequest(name, MergeDefaultRoot(raw, d)).value;
      Execute(cwd, request, events).Some? && Execute(cwd, request, events).value.Resolved?
    ensures var request := BuildRequest(name, MergeDefaultRoot(raw, d)).value;
      HandleCall(name, raw, d, cwd, events)
        == Some(Envelope(Execute(cwd, request, events).value.text, false))
  {
  }
}
