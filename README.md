# A verified model of the auu-mcp-rg search server

auu-mcp-rg is an MCP server that runs ripgrep for its clients. It exposes five tools:
`search`, `advanced-search`, `count-matches`, `list-files` and `list-file-types`. A tool
call is handled in four steps:

1. The call becomes a request record. A default root is merged in when the caller gave
   none, and each tool copies, forces or drops fields.
2. `validatePath` confines the requested `path` to the requested `root`.
3. `buildCommand` compiles the checked request into a ripgrep argument vector. The
   vector starts with exclusion globs for 88 conventional non-source directories and
   files, and ends with the pattern and the search target.
4. `executeRipgrep` turns the callbacks of the spawned process into one promise:
   - stdout chunks accumulate, up to a limit of about 10 MB;
   - exit codes 0 and 1 resolve;
   - any other code, a spawn error or a 30-second timer rejects.

   The handler answers with a text envelope, marked as an error when anything was thrown.

The repository also holds two stand-alone scripts that this model covers:

- `test-cross-platform-paths.js` has a stricter validator. It resolves a relative path
  against the root and decides containment with `path.relative`.
- `test-path-normalization.js` turns backslashes into slashes and builds a small command.

The Dafny modules follow that structure:

- `Common`: optional values, `Ok`/`Err` results, JavaScript truthiness of optional fields,
  and decimal number text.
- `PosixPath`: a lexical model of the POSIX `path` functions the validators use.
  `isAbsolute`, `normalize` + `resolve` and `relative` act on name sequences. The working
  directory is a parameter.
- `Exclusions`: the built-in exclusion list and `buildExcludePatterns`.
- `Confinement`: the server's `validatePath`.
- `SearchArgs`: the request record.
- `CommandBuilder`: `buildCommand`. It is written as an imperative method that pushes
  tokens, and proved equal to a section-by-section reference function `Command`.
- `Execution`: the process callbacks. They are modelled both as a value-level state
  machine (`Step`, `Run`) and as a class whose methods update its fields.
- `Pipeline`: `executeRipgrep` from validation to the settled promise.
- `Router`: the `CallToolRequestSchema` handler.
- `CrossPlatformPaths`: the validator of `test-cross-platform-paths.js` and its test table.
- `PathNormalization`: `test-path-normalization.js`.

Two behaviours are easy to misread from the code's own comments. The model follows the
code in both.

- **Prefix containment.** The server's containment test is a text-prefix test on the two
  resolved strings. It therefore accepts the sibling `/home/user/projectX` under the root
  `/home/user/project`. This is proved as `Confinement.SiblingWithLongerNameAccepted`. The
  stricter validator of the test script refuses that sibling
  (`CrossPlatformPaths.SiblingWithLongerNameRejected`).
- **The target for `root: "."`.** `buildCommand` would push the root `.` itself as the last
  token (src/index.ts:351-364); its comment at src/index.ts:358 says that `.` stands for
  the working directory. But `executeRipgrep` replaces the root by the value
  `validatePath` returns before it compiles (src/index.ts:371-383), so the last token is
  the absolute working directory, never the literal `.`. This is proved as
  `Pipeline.RootDotSearchesWorkingDirectory`.

## Model

| member | source | states |
|---|---|---|
| Common.IntToString | src/index.ts:308-326 | The text of a non-negative number is all digits, and a negative number's text starts with '-', in both directions. |
| Common.IntToStringRoundTrip | src/index.ts:308-326 | The decimal text of a number reads back as the same integer, so distinct numeric option values give distinct tokens. |
| PosixPath.Resolve | src/index.ts:135-138 | Resolution keeps a normalized base normalized; an absolute path ignores the base entirely. |
| PosixPath.ResolveTrailingSlash | src/index.ts:134-137 | A trailing '/' on a non-empty path does not change what it resolves to. |
| PosixPath.ResolveRender | src/index.ts:135-141 | Resolving the text of an already-resolved path gives back the same names, whatever the base: resolution is idempotent. |
| PosixPath.Relative | test-cross-platform-paths.js:20 | The relative text from a path to itself is empty; to a path below it, it is the extra names joined by '/'. |
| PosixPath.RelativeNotAbsolute | test-cross-platform-paths.js:20-21 | On POSIX the relative path between two resolved paths is never absolute. |
| PosixPath.RelativeStartsWithDotDot | test-cross-platform-paths.js:20-21 | The relative text starts with ".." exactly when the target is not at or under the base, or when its first name below the base itself starts with "..". |
| Confinement.OutsideRootMessage | src/index.ts:141 | The message starts with "Path '" and the requested path, continues with "' is outside the root directory '", and ends with the root as given and a closing quote. |
| Confinement.ValidatePath | src/index.ts:131-145 | A falsy root returns the path untouched; a root without a path returns the resolved root. With both, the call throws exactly when the resolved path's text does not start with the resolved root's text, with the "outside the root directory" message. Any value returned under a truthy root is absolute and starts with the resolved root. |
| Confinement.ContainedPathAccepted | src/index.ts:138-143 | Every path whose resolved names lie at or under the resolved root is accepted and returned resolved. |
| Confinement.SiblingWithLongerNameAccepted | src/index.ts:140 | The prefix test lets through "/home/user/projectX" under "/home/user/project", although it is not under that root. |
| Confinement.ParentEscapeRejected | src/index.ts:140-142 | Root "src" with path "../node_modules" is refused for every normalized working directory. |
| CrossPlatformPaths.ResolveAgainstRoot | test-cross-platform-paths.js:13-18 | Resolving an absolute path on its own and a relative one below the root is the same as resolving against the root, and keeps names normal. |
| CrossPlatformPaths.ValidatePath | test-cross-platform-paths.js:7-27 | Falsy root: the path is returned untouched; no path: the resolved root. With both, the call throws exactly when the relative text starts with ".." or is absolute, and otherwise returns the path resolved below the root. |
| CrossPlatformPaths.RejectedIffOutside | test-cross-platform-paths.js:20-24 | The script's validator refuses a path exactly when its names do not extend the root's names (or the first extra name starts with ".."); every accepted path lies at or under the root. |
| CrossPlatformPaths.RootItselfAccepted | test-cross-platform-paths.js:20-24 | The resolved root itself is accepted and returned unchanged. |
| CrossPlatformPaths.DotDotNamedChildRejected | test-cross-platform-paths.js:21 | A child whose name starts with ".." is refused even though it lies under the root, because the test is on text. |
| CrossPlatformPaths.AcceptedByServerValidator | test-cross-platform-paths.js:14-24 | For absolute paths the script's validator is the stricter one: whatever it accepts, the server's validator accepts with the same result. |
| CrossPlatformPaths.SiblingWithLongerNameRejected | test-cross-platform-paths.js:20-22 | The sibling "/home/user/projectX" is refused here while the server's validator accepts it. |
| CrossPlatformPaths.ProjectSubdirCasesAccepted | test-cross-platform-paths.js:58-60 | The three mixed-table cases under "/project" are accepted and all come back as "/project/subdir". |
| CrossPlatformPaths.ProjectSrcAccepted | test-cross-platform-paths.js:47 | "/home/user/project/src" passes under "/home/user/project" and is returned as given, for every normalized working directory. |
| CrossPlatformPaths.OtherSrcRejected | test-cross-platform-paths.js:48 | "/home/user/other/src" is refused under "/home/user/project". |
| CrossPlatformPaths.SrcUtilsAccepted | test-cross-platform-paths.js:49 | The relative "src/utils" passes under "/home/user/project" as "/home/user/project/src/utils", for every normalized working directory. |
| CrossPlatformPaths.UpOtherRejected | test-cross-platform-paths.js:50 | "../other" is refused under "/home/user/project". |
| CrossPlatformPaths.RelativePathAgainstCwdOrRoot | test-cross-platform-paths.js:17 | The two validators disagree on relative paths: from "/tmp" the server's refuses "src/utils" under "/home/user/project", while the script's accepts it. |
| PathNormalization.Normalize | test-path-normalization.js:23 | The length is kept, every backslash becomes '/', and every other character stays in place. |
| PathNormalization.NoBackslashLeft | test-path-normalization.js:23 | No backslash survives, and an output '/' comes exactly from an input '/' or backslash. |
| PathNormalization.UnchangedWithoutBackslash | test-path-normalization.js:23 | A text without backslashes is left unchanged. |
| PathNormalization.Idempotent | test-path-normalization.js:23 | Normalizing twice is the same as normalizing once. |
| PathNormalization.WindowsPathNormalized | test-path-normalization.js:45 | "C:\project\src" comes out as "C:/project/src". |
| PathNormalization.BuildTestCommand | test-path-normalization.js:32-41 | The vector is "rg" and the pattern, plus the normalized path exactly when a non-empty path is given. |
| Exclusions.Negated | src/index.ts:118-120 | One pattern per entry, in order, each the entry with a leading '!'. |
| Exclusions.PushNegated | src/index.ts:118-120 | The push loop yields exactly the negated list. |
| Exclusions.ExcludePatterns | src/index.ts:114-128 | The negated built-in list is a prefix of the patterns, and exactly one more pattern follows when the caller's glob is a non-empty string, none otherwise. |
| Exclusions.BuildExcludePatterns | src/index.ts:114-128 | The method returns the built-in patterns followed by the caller's glob when it is non-empty. |
| Exclusions.ExcludePatternsShape | src/index.ts:114-128 | 88 built-in patterns in list order, plus exactly one for a non-empty caller glob and none otherwise, which comes last. |
| Exclusions.BuiltInsKeepDuplicates | src/index.ts:22-111 | The list has 88 entries; "node_modules", "build" and ".env" each appear twice, and each copy gives its own pattern. |
| Exclusions.UserExcludeIsAdditive | src/index.ts:122-125 | The caller's glob only appends: the built-ins always come first and unchanged, and an empty or missing glob adds nothing. |
| Exclusions.AllPatternsNegated | src/index.ts:114-128 | Every exclusion pattern starts with '!'. |
| CommandBuilder.Excluded | src/index.ts:259-265 | The leading part is "rg" and two tokens per exclusion glob. |
| CommandBuilder.Options | src/index.ts:267-347 | The option sections keep the leading part as a prefix: none removes or reorders it. |
| CommandBuilder.Command | src/index.ts:258-367 | The vector starts with "rg" and the exclusion pairs, and its last two tokens are the pattern and the search target. |
| CommandBuilder.GlobPairs | src/index.ts:262-265 | Two tokens per exclusion glob. |
| CommandBuilder.GlobPairsAt | src/index.ts:262-265 | Token 2i is "-g" and token 2i+1 is the i-th glob. |
| CommandBuilder.PushExclusions | src/index.ts:262-265 | The forEach loop appends exactly the "-g" pairs of the globs, in order. |
| CommandBuilder.PatternSwitches | src/index.ts:267-271 | The section only appends to the vector built so far. |
| CommandBuilder.OutputSwitches | src/index.ts:272-276 | The section only appends. |
| CommandBuilder.FilterSwitches | src/index.ts:277-292 | The section only appends. |
| CommandBuilder.FollowSwitches | src/index.ts:293-295 | The section only appends. |
| CommandBuilder.EngineSwitches | src/index.ts:296-307 | The section only appends. |
| CommandBuilder.DepthLimits | src/index.ts:308-311 | The section only appends. |
| CommandBuilder.GlobSwitches | src/index.ts:312-319 | The section only appends. |
| CommandBuilder.DefinedValues | src/index.ts:321-327 | The section only appends. |
| CommandBuilder.ValuePairs | src/index.ts:329-344 | The section only appends. |
| CommandBuilder.SortSwitches | src/index.ts:346-347 | The section only appends. |
| CommandBuilder.SearchTarget | src/index.ts:351-360 | The target is never empty: the truthy path, else the truthy root, else ".". |
| CommandBuilder.ChooseSearchPath | src/index.ts:351-360 | The if/else chain computes the same target as SearchTarget. |
| CommandBuilder.BuildCommand | src/index.ts:258-367 | The imperative builder, one guarded push after another, produces exactly the specified vector for the request and its exclusion patterns. |
| CommandBuilder.CommandStartsWithExclusionPairs | src/index.ts:259-265 | The vector starts with "rg", followed for every exclusion glob in order by "-g" and the glob. |
| CommandBuilder.RedundantWordSwitchesEachEmit | src/index.ts:268-269 | `word_boundaries` and `whole_word` each add their own "-w", so both set give two. |
| CommandBuilder.RedundantFixedSwitchesEachEmit | src/index.ts:270-271 | `regex === false` and `literal` each add their own "-F". |
| CommandBuilder.RedundantFollowSwitchesEachEmit | src/index.ts:294-295 | `dereference_recursive` and `follow` each add their own "-L". |
| CommandBuilder.ZeroThreadsEmitNothing | src/index.ts:308 | `threads: 0` compiles exactly like an absent `threads`. |
| CommandBuilder.ZeroDepthEmitsNothing | src/index.ts:309 | `depth: 0` compiles exactly like an absent `depth`. |
| CommandBuilder.ZeroMinDepthEmitsNothing | src/index.ts:310 | `min_depth: 0` compiles exactly like an absent `min_depth`. |
| CommandBuilder.ZeroMaxDepthEmitsNothing | src/index.ts:311 | `max_depth: 0` compiles exactly like an absent `max_depth`. |
| CommandBuilder.GuardsOnZeroAndEmpty | src/index.ts:308-327 | Truthiness guards and `!== undefined` guards differ exactly on 0 and "": the first drop them, the second emit them; on every other value they agree. |
| CommandBuilder.ZeroContextEmitted | src/index.ts:321 | `context: 0` still emits "-C" "0", at the start of its section. |
| CommandBuilder.ZeroLimitsEmitted | src/index.ts:322-326 | In any request, `before_context`, `after_context`, `max_columns` and `max_count` set to 0 each still emit their flag and "0", in their place among the section's other tokens. |
| CommandBuilder.EmptyReplaceEmitted | src/index.ts:327 | `replace: ""` still emits "--replace" and the empty text, at the end of its section. |
| CommandBuilder.EmptyMaxFilesizeEmitsNothing | src/index.ts:325 | `max_filesize: ""` compiles exactly like an absent `max_filesize`. |
| CommandBuilder.UntranslatedFieldsIgnored | src/index.ts:258-367 | `max_matches` and the four `*_case_insensitive` preprocessor fields never change the vector. |
| Execution.CodeText | src/index.ts:423 | The code text is non-empty and has no ':'; a missing code gives "null", and a numeric code's text reads back as that code. |
| Execution.Settle | src/index.ts:387 | A promise settles once: the first outcome sticks, and nothing else in the state changes. |
| Execution.Step | src/index.ts:403-430 | No callback undoes a settled outcome, a kill, or a cleared timer. |
| Execution.Run | src/index.ts:403-430 | Once settled, a run's outcome never changes. |
| Execution.RunAppend | src/index.ts:403-430 | Delivering two batches of callbacks one after the other is the same as delivering them joined. |
| Execution.StepAccumulates | src/index.ts:404-413 | Every stdout and stderr chunk is appended, before and after settling. |
| Execution.RunAccumulates | src/index.ts:403-414 | After any callbacks, stdout and stderr are the concatenation of their chunks in delivery order. |
| Execution.FirstSettlingEventWins | src/index.ts:387-431 | The first callback that settles the promise fixes the result whatever follows. |
| Execution.CloseClassification | src/index.ts:416-425 | `close` clears the timer; codes 0 and 1, and only these, resolve with the stdout read so far; every other code, null included, rejects with "ripgrep exited with code <code>: <stderr so far>". |
| Execution.ExitMessage | src/index.ts:423 | The message starts with "ripgrep exited with code " and the code, and ends with ": " and the whole stderr. |
| Execution.SpawnFailureMessage | src/index.ts:429 | The message is "Failed to execute ripgrep: " followed by exactly the error's message. |
| Execution.ExitMessageNamesCode | src/index.ts:423 | Different exit codes give different rejection messages. |
| Execution.SpawnErrorRejects | src/index.ts:427-430 | `error` clears the timer and rejects with "Failed to execute ripgrep: " and the error message. |
| Execution.TimerAfterSettlingCallbackIgnored | src/index.ts:389-428 | After `close` or `error` the timer has been cleared and never fires. |
| Execution.TimerWhileArmedRejects | src/index.ts:389-392 | An armed timer kills the process and rejects with the timeout message, leaving the output untouched. |
| Execution.StepSound | src/index.ts:403-410 | Each callback preserves the output ceiling invariant. |
| Execution.RunSound | src/index.ts:403-421 | The invariant holds after any callbacks: while pending, stdout stays within 10 MiB; a resolved text is within the ceiling or is an over-long stdout ending in the truncation marker. |
| Execution.InitialSound | src/index.ts:400-401 | The freshly spawned state meets the invariant. |
| Execution.OverflowTruncates | src/index.ts:406-408 | Crossing the ceiling kills the process and resolves with the whole stdout and the truncation marker, when nothing settled before. |
| Execution.RipgrepProcess.constructor | src/index.ts:389-401 | A new process has empty accumulators, a pending promise and an armed timer. |
| Execution.RipgrepProcess.Resolve | src/index.ts:408 | The fields change as the first-call-wins `resolve` specifies. |
| Execution.RipgrepProcess.Reject | src/index.ts:423 | The fields change as the first-call-wins `reject` specifies. |
| Execution.RipgrepProcess.OnStdoutData | src/index.ts:403-410 | The fields move to the state the stdout step specifies. |
| Execution.RipgrepProcess.OnStderrData | src/index.ts:412-414 | The fields move to the state the stderr step specifies. |
| Execution.RipgrepProcess.OnClose | src/index.ts:416-425 | The fields move to the state the close step specifies. |
| Execution.RipgrepProcess.OnError | src/index.ts:427-430 | The fields move to the state the error step specifies. |
| Execution.RipgrepProcess.OnTimer | src/index.ts:389-392 | The fields move to the state the timer step specifies. |
| Pipeline.Rewrite | src/index.ts:372-383 | Only `root` and `path` may change; a truthy validated value becomes the search target; a falsy one leaves the request unchanged. |
| Pipeline.PreparedArgs | src/index.ts:371-383 | The request fails exactly when validation throws, with the confinement message; otherwise only `root` and `path` may change. |
| Pipeline.Prepare | src/index.ts:385-393 | A vector is compiled exactly when validation passes. |
| Pipeline.Execute | src/index.ts:369-432 | A confinement error rejects the promise with its message. |
| Pipeline.NoRootKeepsRequest | src/index.ts:371-383 | Without a truthy root the request reaches the compiler unchanged. |
| Pipeline.TargetIsResolved | src/index.ts:371-385 | With a truthy root the search target is absolute and under the resolved root: the resolved path if one was given, otherwise the resolved root. |
| Pipeline.OutsideRootNeverSpawns | src/index.ts:371 | A refused path rejects with the confinement message whatever the process would do: nothing is spawned. |
| Pipeline.ParentEscapeRequestRejected | src/index.ts:371 | `root: "src", path: "../node_modules"` is rejected with the confinement message for every normalized working directory. |
| Pipeline.RootDotSearchesWorkingDirectory | src/index.ts:375-383 | `root: "."` with no path is accepted and searches the absolute working directory, never the literal ".". |
| Pipeline.PathTakesPrecedence | src/index.ts:376-377 | With a contained path, the target is the resolved path, not the root. |
| Pipeline.PreparedCommandEnds | src/index.ts:385 | The compiled vector ends with the pattern and the rewritten target. |
| Pipeline.AcceptedRequestFollowsCallbacks | src/index.ts:385-431 | Once validation passes, the promise settles as the process callbacks decide. |
| Router.MergeDefaultRoot | src/index.ts:582-585 | The default root fills in only when it is truthy and the caller's root is not; otherwise the arguments are untouched. |
| Router.BuildRequest | src/index.ts:587-641 | Exactly the five tool names are accepted; any other throws "Unknown tool: " and the name. |
| Router.ErrorEnvelope | src/index.ts:651-660 | The envelope is marked as an error and its text is "Error: " followed by exactly the thrown message. |
| Router.HandleCall | src/index.ts:575-662 | The handler marks a response as an error only when its text starts with "Error: ". |
| Router.UnknownToolRejected | src/index.ts:639-640 | An unknown tool is answered with "Error: Unknown tool: <name>" marked as an error, whatever the process would do. |
| Router.DefaultRootIgnoredWhenRootGiven | src/index.ts:583 | With a truthy root in the call, the default root makes no difference to the response. |
| Router.DefaultRootActsAsRoot | src/index.ts:583-585 | Without a truthy root, a truthy default root gives the same response as sending it as the root. |
| Router.ListFileTypesIgnoresScope | src/index.ts:632-637 | `list-file-types` builds the same request whatever the caller sent: no root, no path, an empty pattern, file types on. |
| Router.ListFileTypesNeverConfined | src/index.ts:632-637 | The `list-file-types` request always passes validation unchanged. |
| Router.ForcedFields | src/index.ts:616-628 | `count-matches` always counts and keeps the pattern; `list-files` always lists with an empty pattern. |
| Router.SearchMaxMatchesDefault | src/index.ts:596 | `search` sets `max_matches` to 100 when it is missing or 0, and keeps any other value. |
| Router.SearchDropsOtherFields | src/index.ts:588-601 | `search` copies the pattern, root, path, include, exclude, context, case and word switches and file type unchanged from the merged arguments; switches such as `whole_word`, `regex`, `count` or `threads` are dropped. |
| Router.SearchReadsOnlyItsFields | src/index.ts:588-601 | Two argument records that agree on the ten fields `search` reads give the same request, whatever else they hold. |
| Router.CountReadsOnlyItsFields | src/index.ts:607-618 | `count-matches` depends only on its seven fields. |
| Router.CountCopiesItsFields | src/index.ts:607-618 | `count-matches` copies root, path, include, exclude, case switch and file type unchanged from the merged arguments. |
| Router.ListFilesCopiesItsFields | src/index.ts:620-630 | `list-files` copies root, path, include, exclude and file type unchanged from the merged arguments. |
| Router.ListFilesReadsOnlyItsFields | src/index.ts:620-630 | `list-files` depends only on its five scope fields, not even on the pattern. |
| Router.AdvancedSearchPassesThrough | src/index.ts:603-605 | `advanced-search` forwards the merged arguments unchanged. |
| Router.OutsideRootReported | src/index.ts:651-660 | A refused path reaches the caller as an error envelope with the confinement message, for every tool that forwards the scope. |
| Router.RejectedRunReported | src/index.ts:651-660 | A run the process rejects (timeout, an exit code other than 0 and 1, a spawn error) is answered with an error envelope carrying the rejection message. |
| Router.ResolvedTextReturned | src/index.ts:643-650 | A resolved run answers with its text, not marked as an error. |

## Left out

- The MCP server object, the stdio transport, `main` and the `ListTools` metadata are not modelled. They are I/O and static descriptions, not logic.
- The server does no runtime validation of the arguments: `ArgsSchema` serves only as the TypeScript type (src/index.ts:237) and in the tool metadata (src/index.ts:492), and the handler reads the raw arguments as `any`. The model's typed `Args` record is an assumption about the request: every field holds a value of its declared type, or is absent, and the pattern is a string. Non-integer and non-finite numbers, values of the wrong type and unknown fields (which `advanced-search` forwards and `buildCommand` ignores) are not modelled.
- The `Args` fields `include` and `type` are named `include_glob` and `type_name`, because `include` and `type` are Dafny keywords.
- `advanced-search` with a missing or non-string pattern is not modelled: the pattern is always a string.
- A `spawn` call that throws synchronously (src/index.ts:393; for example, Node refuses an argument holding a NUL byte, which a pattern can contain) is not modelled: no event stands for it. By Node's rules the executor would then reject the promise with Node's own error message rather than "Failed to execute ripgrep: …", and the armed timer would later call `rg.kill()` on a variable that was never initialised.
- The actual spawn, `kill`, timers and streams are not modelled. The callbacks the process delivers are a parameter (a sequence of events). Chunk boundaries and their decoding are outside the model.
- `process.env.ROOT` is the `defaultRoot` parameter. The process's working directory is the `cwd` parameter, and the file system is never consulted.
- Windows paths and `path.win32` are not modelled: the path model is POSIX only. The Windows rows of the script's test table are therefore left out.
- String length counts characters. JavaScript's UTF-16 code-unit count for the 10 MB ceiling is not distinguished.
- `escapeArg` is not modelled. Nothing calls it.
- The console output of the two scripts and their pass/fail counters are not modelled.
- CommandBuilder.PatternSwitches, OutputSwitches, FilterSwitches, FollowSwitches, EngineSwitches, DepthLimits, GlobSwitches, DefinedValues, ValuePairs and SortSwitches: each contract only says that the section appends. The tokens each section emits are pinned by `BuildCommand`'s contract and by the lemmas about them.
- CommandBuilder.RedundantWordSwitchesEachEmit, RedundantFixedSwitchesEachEmit and RedundantFollowSwitchesEachEmit: the counts are stated for their own section, not over the whole vector, because other sections may hold the same token.
- CommandBuilder.ZeroContextEmitted and EmptyReplaceEmitted are stated at the level of their section, not the whole vector, to keep the proofs small.
- Pipeline.Execute: its contract covers only the confinement-error path; the accepted path is stated by AcceptedRequestFollowsCallbacks.
- Router.HandleCall: its contract covers only the error marker. The responses are stated by UnknownToolRejected (unknown tool), OutsideRootReported (refused path), RejectedRunReported (rejected run) and ResolvedTextReturned (resolved run).
- Router.SearchRequest, CountRequest, ListFilesRequest and ListFileTypesRequest have no contract of their own; what they copy, force and drop is stated by SearchMaxMatchesDefault, SearchDropsOtherFields and SearchReadsOnlyItsFields for `search`; ForcedFields, CountCopiesItsFields and CountReadsOnlyItsFields for `count-matches`; ForcedFields, ListFilesCopiesItsFields and ListFilesReadsOnlyItsFields for `list-files`; ListFileTypesIgnoresScope for `list-file-types`.
- Common.IntToString: numbers are unbounded integers printed in full decimal. JavaScript numbers are doubles: they hold integers exactly only up to 2^53, and `String(n)` switches to exponent form (such as "1e+21") once |n| reaches 10^21. Neither is modelled.
