/** The stricter path validator kept beside the server's own one
    (test-cross-platform-paths.js:7-27). A relative path is resolved against the resolved
    root rather than the working directory, and containment is decided on
    `path.relative(root, path)`: the path is refused when that text starts with ".." or is
    absolute. */
module CrossPlatformPaths {
  import opened Common
  import opened PosixPath
  import Confinement

  /** The resolved path: an absolute path on its own, a relative one below the root. */
  function ResolveAgainstRoot(cwd: seq<string>, rootSegs: seq<string>, p: string): (r: seq<string>)
    ensures r == Resolve(rootSegs, p)
    ensures IsNormal(rootSegs) ==> IsNormal(r)
  {
    if IsAbsolute(p) then Resolve(cwd, p) else Resolve(rootSegs, p)
  }

  /** The relative text is refused when it starts with ".." or is absolute. */
  predicate Escapes(rel: string) {
    StartsWith(rel, "..") || IsAbsolute(rel)
  }

  /** `validatePath(root, path)` of test-cross-platform-paths.js, with `Ok`/`Err` as in
      the server's own validator. */
  function ValidatePath(cwd: seq<string>, root: Option<string>, path: Option<string>)
    : (r: Result<Option<string>>)
    ensures !NonEmpty(root) ==> r == Ok(path)
    ensures NonEmpty(root) && !NonEmpty(path) ==> r == Ok(Some(Render(Resolve(cwd, root.value))))
    ensures NonEmpty(root) && NonEmpty(path) ==>
      var rootSegs := Resolve(cwd, root.value);
      var segs := Resolve(rootSegs, path.value);
      (r.Err? <==> Escapes(Relative(rootSegs, segs))) && (r.Ok? ==> r == Ok(Some(Render(segs))))
    ensures r.Err? ==>
      NonEmpty(root) && NonEmpty(path) && r.message == Confinement.OutsideRootMessage(path.value, root.value)
  {
    if !NonEmpty(root) then Ok(path)
    else
      var rootSegs := Resolve(cwd, root.value);
      if NonEmpty(path) then
        var segs := ResolveAgainstRoot(cwd, rootSegs, path.value);
        if Escapes(Relative(rootSegs, segs)) then
          Err(Confinement.OutsideRootMessage(path.value, root.value))
        else Ok(Some(Render(segs)))
      else Ok(Some(Render(rootSegs)))
  }

  /** Under the root: the resolved names extend the root's names, and the first name below
      the root (if any) does not start with "..". */
  predicate Inside(rootSegs: seq<string>, segs: seq<string>) {
    rootSegs <= segs && (|segs| == |rootSegs| || !StartsWith(segs[|rootSegs|], ".."))
  }

  /** The validator refuses a path exactly when it does not lie inside the root, so every
      accepted path lies at or under the root as a sequence of names. */
  lemma RejectedIffOutside(cwd: seq<string>, root: string, path: string)
    requires IsNormal(cwd) && root != "" && path != ""
    ensures var rootSegs := Resolve(cwd, root);
      var segs := Resolve(rootSegs, path);
      (ValidatePath(cwd, Some(root), Some(path)).Err? <==> !Inside(rootSegs, segs))
      && (ValidatePath(cwd, Some(root), Some(path)).Ok? ==> rootSegs <= segs)
  {
    var rootSegs := Resolve(cwd, root);
    var segs := Resolve(rootSegs, path);
    RelativeStartsWithDotDot(rootSegs, segs);
    RelativeNotAbsolute(rootSegs, segs);
  }

  /** A path inside the root is accepted and returned resolved below it. */
  lemma InsideAccepted(cwd: seq<string>, root: string, path: string)
    requires IsNormal(cwd) && root != "" && path != ""
    requires Inside(Resolve(cwd, root), Resolve(Resolve(cwd, root), path))
    ensures ValidatePath(cwd, Some(root), Some(path)) == Ok(Some(Render(Resolve(Resolve(cwd, root), path))))
  {
    RejectedIffOutside(cwd, root, path);
  }

  /** The resolved root itself passes: its relative text is empty. */
  lemma RootItselfAccepted(cwd: seq<string>, root: string)
    requires IsNormal(cwd) && root != ""
    ensures var rootText := Render(Resolve(cwd, root));
      ValidatePath(cwd, Some(root), Some(rootText)) == Ok(Some(rootText))
  {
    var rootSegs := Resolve(cwd, root);
    ResolveRender(rootSegs, rootSegs);
    RejectedIffOutside(cwd, root, Render(rootSegs));
  }

  /** The test is on the text "..", not on a ".." name: a child directory whose name
      starts with ".." is refused although it lies under the root. */
  lemma DotDotNamedChildRejected(cwd: seq<string>, root: string, name: string)
    requires IsNormal(cwd) && root != ""
    requires IsName(name) && StartsWith(name, "..")
    ensures var rootSegs := Resolve(cwd, root);
      rootSegs <= rootSegs + [name]
      && ValidatePath(cwd, Some(root), Some(Render(rootSegs + [name]))).Err?
  {
    var rootSegs := Resolve(cwd, root);
    var segs := rootSegs + [name];
    assert IsNormal(segs);
    ResolveRender(rootSegs, segs);
    RejectedIffOutside(cwd, root, Render(segs));
    assert segs[|rootSegs|] == name;
  }

  /** For an absolute path this validator is the stricter one: whatever it accepts, the
      server's text-prefix validator accepts too, with the same result. */
  lemma AcceptedByServerValidator(cwd: seq<string>, root: string, path: string)
    requires IsNormal(cwd) && root != "" && IsAbsolute(path)
    requires ValidatePath(cwd, Some(root), Some(path)).Ok?
    ensures Confinement.ValidatePath(cwd, Some(root), Some(path))
      == ValidatePath(cwd, Some(root), Some(path))
  {
    var rootSegs := Resolve(cwd, root);
    RejectedIffOutside(cwd, root, path);
    assert Resolve(rootSegs, path) == Resolve(cwd, path);
    Confinement.ContainedPathAccepted(cwd, root, path);
  }

  /** The sibling that the server's validator lets through is refused here. */
  lemma SiblingWithLongerNameRejected(cwd: seq<string>, root: string, path: string)
    requires IsNormal(cwd)
    requires root == "/home/user/project" && path == "/home/user/projectX"
    ensures ValidatePath(cwd, Some(root), Some(path)).Err?
    ensures Confinement.ValidatePath(cwd, Some(root), Some(path)).Ok?
  {
    Confinement.SiblingWithLongerNameAccepted(cwd, root, path);
    Confinement.ResolveProjectRoot(cwd, root);
    Confinement.RenderProjectSibling(root, path);
    ResolveRender(Resolve(cwd, root), ["home", "user", "projectX"]);
    RejectedIffOutside(cwd, root, path);
  }

  lemma ResolveProject(base: seq<string>, p: string)
    requires p == "/project"
    ensures Resolve(base, p) == ["project"]
  {
    assert JoinSlash(["", "project"]) == p;
    ResolvePieces(base, p, ["", "project"]);
  }

  lemma ResolveProjectSubdir(base: seq<string>, p: string)
    requires p == "/project/subdir"
    ensures Resolve(base, p) == ["project", "subdir"]
  {
    assert JoinSlash(["", "project", "subdir"]) == p;
    ResolvePieces(base, p, ["", "project", "subdir"]);
  }

  lemma ResolveProjectSubdirUpSubdir(base: seq<string>, p: string)
    requires p == "/project/subdir/../subdir"
    ensures Resolve(base, p) == ["project", "subdir"]
  {
    var parts := ["", "project", "subdir", "..", "subdir"];
    assert JoinSlash(parts) == p;
    ResolvePieces(base, p, parts);
  }

  lemma ResolveProjectDotSubdir(base: seq<string>, p: string)
    requires p == "/project/./subdir"
    ensures Resolve(base, p) == ["project", "subdir"]
  {
    var parts := ["", "project", ".", "subdir"];
    assert JoinSlash(parts) == p;
    ResolvePieces(base, p, parts);
  }

  /** An absolute path that resolves to "/project/subdir" is accepted under "/project". */
  lemma ProjectSubdirAccepted(cwd: seq<string>, root: string, path: string)
    requires IsNormal(cwd) && root == "/project" && IsAbsolute(path)
    requires Resolve(["project"], path) == ["project", "subdir"]
    ensures ValidatePath(cwd, Some(root), Some(path)) == Ok(Some("/project/subdir"))
  {
    ResolveProject(cwd, root);
    var segs := ["project", "subdir"];
    assert segs[1][0] != '.';
    RejectedIffOutside(cwd, root, path);
    assert Render(segs) == "/project/subdir";
  }

  /** "/project/subdir", "/project/subdir/../subdir" and "/project/./subdir" are all
      accepted under "/project", and all come back as "/project/subdir". */
  lemma ProjectSubdirCasesAccepted(cwd: seq<string>, root: string, path: string)
    requires IsNormal(cwd) && root == "/project"
    requires path == "/project/subdir" || path == "/project/subdir/../subdir"
          || path == "/project/./subdir"
    ensures ValidatePath(cwd, Some(root), Some(path)) == Ok(Some("/project/subdir"))
  {
    var rootSegs := ["project"];
    if path == "/project/subdir" {
      ResolveProjectSubdir(rootSegs, path);
    } else if path == "/project/subdir/../subdir" {
      ResolveProjectSubdirUpSubdir(rootSegs, path);
    } else {
      ResolveProjectDotSubdir(rootSegs, path);
    }
    assert path[0] == '/';
    ProjectSubdirAccepted(cwd, root, path);
  }

  lemma ResolveHomeUserProjectSrc(base: seq<string>, p: string)
    requires p == "/home/user/project/src"
    ensures Resolve(base, p) == ["home", "user", "project", "src"]
  {
    var parts := ["", "home", "user", "project", "src"];
    assert JoinSlash(parts) == p;
    ResolvePieces(base, p, parts);
  }

  lemma ResolveSrcUtils(base: seq<string>, p: string)
    requires p == "src/utils"
    ensures Resolve(base, p) == base + ["src", "utils"]
  {
    assert JoinSlash(["src", "utils"]) == p;
    ResolvePieces(base, p, ["src", "utils"]);
  }

  /** From the POSIX table: "/home/user/project/src" passes under "/home/user/project". */
  lemma ProjectSrcAccepted(cwd: seq<string>, root: string, path: string)
    requires IsNormal(cwd) && root == "/home/user/project" && path == "/home/user/project/src"
    ensures ValidatePath(cwd, Some(root), Some(path)) == Ok(Some(path))
  {
    Confinement.ResolveProjectRoot(cwd, root);
    var rootSegs := ["home", "user", "project"];
    ResolveHomeUserProjectSrc(rootSegs, path);
    var segs := ["home", "user", "project", "src"];
    assert rootSegs + ["src"] == segs;
    assert segs[3][0] != '.';
    RejectedIffOutside(cwd, root, path);
    RenderHomeUserProjectSrc(path);
  }

  lemma RenderHomeUserProjectSrc(p: string)
    requires p == "/home/user/project/src"
    ensures Render(["home", "user", "project", "src"]) == p
  {
    assert JoinSlash(["", "home", "user", "project", "src"]) == p;
    RenderPieces(["home", "user", "project", "src"], p);
  }

  lemma RenderHomeUserProjectSrcUtils(p: string)
    requires p == "/home/user/project/src/utils"
    ensures Render(["home", "user", "project", "src", "utils"]) == p
  {
    var src := ["home", "user", "project", "src"];
    RenderHomeUserProjectSrc("/home/user/project/src");
    Confinement.RenderAppend(src, "utils");
    assert src + ["utils"] == ["home", "user", "project", "src", "utils"];
  }

  /** From the POSIX table: the relative "src/utils" passes under "/home/user/project",
      resolved below the root. */
  lemma SrcUtilsAccepted(cwd: seq<string>, root: string, path: string)
    requires IsNormal(cwd) && root == "/home/user/project" && path == "src/utils"
    ensures ValidatePath(cwd, Some(root), Some(path)) == Ok(Some("/home/user/project/src/utils"))
  {
    Confinement.ResolveProjectRoot(cwd, root);
    var rootSegs := ["home", "user", "project"];
    ResolveSrcUtils(rootSegs, path);
    var segs := ["home", "user", "project", "src", "utils"];
    assert rootSegs + ["src", "utils"] == segs;
    assert segs[3][0] != '.';
    InsideAccepted(cwd, root, path);
    RenderHomeUserProjectSrcUtils("/home/user/project/src/utils");
  }

  /** From the POSIX table: "/home/user/other/src" is refused under "/home/user/project". */
  lemma OtherSrcRejected(cwd: seq<string>, root: string, path: string)
    requires IsNormal(cwd) && root == "/home/user/project" && path == "/home/user/other/src"
    ensures ValidatePath(cwd, Some(root), Some(path)).Err?
  {
    Confinement.ResolveProjectRoot(cwd, root);
    var rootSegs := ["home", "user", "project"];
    var parts := ["", "home", "user", "other", "src"];
    assert JoinSlash(parts) == path;
    ResolvePieces(rootSegs, path, parts);
    var segs := ["home", "user", "other", "src"];
    assert rootSegs[2] != segs[2];
    RejectedIffOutside(cwd, root, path);
  }

  /** From the POSIX table: "../other" is refused under "/home/user/project". */
  lemma UpOtherRejected(cwd: seq<string>, root: string, path: string)
    requires IsNormal(cwd) && root == "/home/user/project" && path == "../other"
    ensures ValidatePath(cwd, Some(root), Some(path)).Err?
  {
    Confinement.ResolveProjectRoot(cwd, root);
    var rootSegs := ["home", "user", "project"];
    assert path == "../" + "other";
    Confinement.ResolveUpName(rootSegs, "other", path);
    var segs := ["home", "user", "other"];
    assert Parent(rootSegs) == ["home", "user"];
    assert rootSegs[2] != segs[2];
    RejectedIffOutside(cwd, root, path);
  }

  /** The two validators resolve a relative path differently: run from "/tmp", the server's
      validator refuses "src/utils" under "/home/user/project", which this one accepts as
      "/home/user/project/src/utils". */
  lemma RelativePathAgainstCwdOrRoot(cwd: seq<string>, root: string, path: string)
    requires cwd == ["tmp"] && root == "/home/user/project" && path == "src/utils"
    ensures Confinement.ValidatePath(cwd, Some(root), Some(path)).Err?
    ensures ValidatePath(cwd, Some(root), Some(path)) == Ok(Some("/home/user/project/src/utils"))
  {
    SrcUtilsAccepted(cwd, root, path);
    Confinement.ResolveProjectRoot(cwd, root);
    ResolveSrcUtils(cwd, path);
    var mine := Render(["tmp", "src", "utils"]);
    assert mine[1] == 't';
    assert Render(["home", "user", "project"])[1] == 'h';
  }
}
