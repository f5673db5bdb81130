/** `executeRipgrep` (src/index.ts:369-432) up to the spawn and around it: the production
    confinement check on `root` and `path`, the rewrite of the request with the checked
    value, the argument compiler, and the promise the process callbacks settle. */
module Pipeline {
  import opened Common
  import opened PosixPath
  import opened Confinement
  import opened SearchArgs
  import opened Exclusions
  import opened CommandBuilder
  import opened Execution

  /** The copy `validatedArgs` after the rewrite (src/index.ts:372-383): a truthy
      validated value replaces `path` when the request has one and `root` otherwise
      (the last two branches of the source do the same thing). */
  function Rewrite(a: Args, validated: Option<string>): (r: Args)
    ensures r == a.(root := r.root, path := r.path)
    ensures NonEmpty(validated) ==> SearchTarget(r) == validated.value
    ensures !NonEmpty(validated) ==> r == a
  {
    if NonEmpty(validated) then
      if NonEmpty(a.path) then a.(path := validated) else a.(root := validated)
    else a
  }

  /** The checked and rewritten request, or the confinement error. */
  function PreparedArgs(cwd: seq<string>, a: Args): (r: Result<Args>)
    ensures r.Err? <==> ValidatePath(cwd, a.root, a.path).Err?
    ensures r.Err? ==> r.message == OutsideRootMessage(a.path.value, a.root.value)
    ensures r.Ok? ==> r.value == a.(root := r.value.root, path := r.value.path)
  {
    match ValidatePath(cwd, a.root, a.path)
    case Err(m) => Err(m)
    case Ok(v) => Ok(Rewrite(a, v))
  }

  /** The argument vector `executeRipgrep` spawns: ripgrep receives all of it but the
      leading "rg" (`cmd.slice(1)`, src/index.ts:393). */
  function Prepare(cwd: seq<string>, a: Args): (r: Result<seq<string>>)
    ensures r.Err? <==> PreparedArgs(cwd, a).Err?
  {
    match PreparedArgs(cwd, a)
    case Err(m) => Err(m)
    case Ok(b) => Ok(Command(b, ExcludePatterns(b.exclude)))
  }

  /** The promise `executeRipgrep` returns, given the callbacks that the process spawned
      with `Prepare(cwd, a)` would deliver: a confinement error rejects before anything is
      spawned; otherwise the first settling callback decides, and `None` is a promise
      still pending. */
  function Execute(cwd: seq<string>, a: Args, events: seq<Event>): (r: Option<Outcome>)
    ensures PreparedArgs(cwd, a).Err? ==> r == Some(Rejected(PreparedArgs(cwd, a).message))
  {
    match PreparedArgs(cwd, a)
    case Err(m) => Some(Rejected(m))
    case Ok(_) => Run(Initial, events).outcome
  }

  /** Without a truthy root the request reaches the compiler unchanged. */
  lemma NoRootKeepsRequest(cwd: seq<string>, a: Args)
    requires !NonEmpty(a.root)
    ensures PreparedArgs(cwd, a) == Ok(a)
  {
    if NonEmpty(a.path) {
      assert a.(path := a.path) == a;
    }
  }

  /** With a truthy root the search target is absolute and under the resolved root: the
      resolved path when the request has a truthy path, the resolved root otherwise
      (src/index.ts:371-383, 353-360). */
  lemma TargetIsResolved(cwd: seq<string>, a: Args)
    requires NonEmpty(a.root)
    ensures var r := PreparedArgs(cwd, a);
      r.Ok? ==>
        var t := SearchTarget(r.value);
        IsAbsolute(t) && StartsWith(t, Render(Resolve(cwd, a.root.value)))
        && (NonEmpty(a.path) ==> t == Render(Resolve(cwd, a.path.value)))
        && (!NonEmpty(a.path) ==> t == Render(Resolve(cwd, a.root.value)))
  {
  }

  /** A request whose path is outside the root is refused before any process exists: the
      callbacks play no part (src/index.ts:371). */
  lemma OutsideRootNeverSpawns(cwd: seq<string>, a: Args, events: seq<Event>)
    requires ValidatePath(cwd, a.root, a.path).Err?
    ensures Execute(cwd, a, events) == Some(Rejected(OutsideRootMessage(a.path.value, a.root.value)))
  {
  }

  /** `root: "src", path: "../node_modules"` is refused whatever the working directory. */
  lemma ParentEscapeRequestRejected(cwd: seq<string>, a: Args, events: seq<Event>)
    requires a.root == Some("src") && a.path == Some("../node_modules")
    ensures Execute(cwd, a, events) == Some(Rejected(OutsideRootMessage("../node_modules", "src")))
  {
    ParentEscapeRejected(cwd, "src", "../node_modules");
  }

  lemma ResolveDot(cwd: seq<string>, p: string)
    requires p == "."
    ensures Resolve(cwd, p) == cwd
  {
    assert JoinSlash(["."]) == p;
    ResolvePieces(cwd, p, ["."]);
  }

  /** `root: "."` without a path searches the absolute working directory: the rewrite puts
      the resolved root in place of ".", so the target token is never "." itself. */
  lemma RootDotSearchesWorkingDirectory(cwd: seq<string>, a: Args)
    requires a.root == Some(".") && !NonEmpty(a.path)
    ensures PreparedArgs(cwd, a).Ok?
    ensures SearchTarget(PreparedArgs(cwd, a).value) == Render(cwd)
    ensures SearchTarget(PreparedArgs(cwd, a).value) != "."
  {
    ResolveDot(cwd, ".");
  }

  /** With a truthy root and path inside it, the target is the path, never the root. */
  lemma PathTakesPrecedence(cwd: seq<string>, a: Args)
    requires NonEmpty(a.root) && NonEmpty(a.path)
    requires Resolve(cwd, a.root.value) <= Resolve(cwd, a.path.value)
    ensures PreparedArgs(cwd, a).Ok?
    ensures SearchTarget(PreparedArgs(cwd, a).value) == Render(Resolve(cwd, a.path.value))
  {
    ContainedPathAccepted(cwd, a.root.value, a.path.value);
  }

  /** A compiled vector ends with the pattern and the rewritten target. */
  lemma PreparedCommandEnds(cwd: seq<string>, a: Args)
    requires PreparedArgs(cwd, a).Ok?
    ensures var b := PreparedArgs(cwd, a).value;
      var cmd := Prepare(cwd, a).value;
      |cmd| >= 3 && cmd[|cmd| - 2] == a.pattern && cmd[|cmd| - 1] == SearchTarget(b)
  {
  }

  /** Once compiled, the promise settles as the process callbacks decide. */
  lemma AcceptedRequestFollowsCallbacks(cwd: seq<string>, a: Args, events: seq<Event>)
    requires PreparedArgs(cwd, a).Ok?
    ensures Execute(cwd, a, events) == Run(Initial, events).outcome
  {
  }
}
