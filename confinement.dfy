/** The path confinement check that the server runs before every search
    (`validatePath`, src/index.ts:131-145). Both the root and the requested path are
    resolved against the process's working directory `cwd`, and containment is a plain
    text-prefix test on the two resolved strings. */
module Confinement {
  import opened Common
  import opened PosixPath

  /** The message names the requested path first and the root as given last. */
  function OutsideRootMessage(path: string, root: string): (m: string)
    ensures StartsWith(m, "Path '" + path + "'")
    ensures |m| > |root| && m[|m| - |root| - 1..] == root + "'"
    ensures |"Path '" + path + "'"| <= |m| - |root| - 1
    ensures m[|"Path '" + path + "'"|..|m| - |root| - 1] == " is outside the root directory '"
  {
    var head, tail := "Path '" + path + "'", " is outside the root directory '" + root + "'";
    var front := head + " is outside the root directory '";
    var m := "Path '" + path + "' is outside the root directory '" + root + "'";
    assert m == head + tail && m == front + (root + "'");
    assert (head + tail)[..|head|] == head;
    assert (front + (root + "'"))[|front|..] == root + "'";
    assert (front + (root + "'"))[..|front|] == front;
    assert front[|head|..] == " is outside the root directory '";
    m
  }

  /** `validatePath(root, path)`: `Ok(v)` is a normal return of `v` (`None` standing for
      `undefined`), `Err(m)` a thrown error with message `m`. */
  function ValidatePath(cwd: seq<string>, root: Option<string>, path: Option<string>)
    : (r: Result<Option<string>>)
    ensures !NonEmpty(root) ==> r == Ok(path)
    ensures NonEmpty(root) && !NonEmpty(path) ==> r == Ok(Some(Render(Resolve(cwd, root.value))))
    ensures NonEmpty(root) && NonEmpty(path) ==>
      (r.Err? <==> !StartsWith(Render(Resolve(cwd, path.value)), Render(Resolve(cwd, root.value))))
    ensures r.Err? ==> NonEmpty(root) && NonEmpty(path) && r.message == OutsideRootMessage(path.value, root.value)
    ensures NonEmpty(root) && r.Ok? ==>
      r.value.Some? && IsAbsolute(r.value.value) && StartsWith(r.value.value, Render(Resolve(cwd, root.value)))
  {
    if !NonEmpty(root) then Ok(path)
    else
      var resolvedRoot := Render(Resolve(cwd, root.value));
      if NonEmpty(path) then
        var resolvedPath := Render(Resolve(cwd, path.value));
        if !StartsWith(resolvedPath, resolvedRoot) then Err(OutsideRootMessage(path.value, root.value))
        else Ok(Some(resolvedPath))
      else
        assert StartsWith(resolvedRoot, resolvedRoot);
        Ok(Some(resolvedRoot))
  }

  /** Every path whose resolved names lie at or under the resolved root is accepted and
      comes back resolved. */
  lemma ContainedPathAccepted(cwd: seq<string>, root: string, path: string)
    requires root != "" && path != ""
    requires Resolve(cwd, root) <= Resolve(cwd, path)
    ensures ValidatePath(cwd, Some(root), Some(path)) == Ok(Some(Render(Resolve(cwd, path))))
  {
    PrefixRendersPrefix(Resolve(cwd, root), Resolve(cwd, path));
  }

  lemma ResolveProjectRoot(cwd: seq<string>, p: string)
    requires p == "/home/user/project"
    ensures Resolve(cwd, p) == ["home", "user", "project"]
  {
    var parts := ["", "home", "user", "project"];
    assert JoinSlash(parts) == p;
    ResolvePieces(cwd, p, parts);
  }

  /** The text-prefix test is weaker than containment: a sibling directory whose name
      extends the root's last name is accepted although it lies outside the root. */
  lemma SiblingWithLongerNameAccepted(cwd: seq<string>, root: string, path: string)
    requires root == "/home/user/project" && path == "/home/user/projectX"
    ensures ValidatePath(cwd, Some(root), Some(path)) == Ok(Some(path))
    ensures !(Resolve(cwd, root) <= Resolve(cwd, path))
  {
    ResolveProjectRoot(cwd, root);
    var r, q := ["home", "user", "project"], ["home", "user", "projectX"];
    RenderProjectSibling(root, path);
    ResolveRender(cwd, q);
    assert r[2] != q[2];
    RenderProjectRoot(root);
    assert (root + "X")[..|root|] == root;
  }

  lemma RenderProjectRoot(p: string)
    requires p == "/home/user/project"
    ensures Render(["home", "user", "project"]) == p
  {
    assert Render(["home", "user", "project"]) == Concat(["home", "user", "project"]);
  }

  lemma RenderProjectSibling(root: string, p: string)
    requires root == "/home/user/project" && p == "/home/user/projectX"
    ensures Render(["home", "user", "projectX"]) == p && p == root + "X"
    ensures IsNormal(["home", "user", "projectX"])
  {
    assert Render(["home", "user", "projectX"]) == Concat(["home", "user", "projectX"]);
  }

  lemma ResolveSrc(cwd: seq<string>, p: string)
    requires p == "src"
    ensures Resolve(cwd, p) == cwd + ["src"]
  {
    assert JoinSlash(["src"]) == p;
    ResolvePieces(cwd, p, ["src"]);
  }

  /** A path one level up: "../name" is the sibling `name` of the base. */
  lemma ResolveUpName(base: seq<string>, name: string, p: string)
    requires IsName(name) && p == "../" + name
    ensures Resolve(base, p) == Parent(base) + [name]
  {
    assert JoinSlash(["..", name]) == p;
    ResolvePieces(base, p, ["..", name]);
    assert p[0] == '.';
    assert ["..", name][1..] == [name] && [name][1..] == [];
    assert !IsAbsolute(p);
    assert Fold(base, ["..", name]) == Fold(Parent(base), [name]);
    assert StepPart(Parent(base), name) == Parent(base) + [name];
    assert Fold(Parent(base), [name]) == Fold(Parent(base) + [name], []);
  }

  /** A common first part can be dropped from both sides of a prefix test. */
  lemma StartsWithCancel(c: string, u: string, v: string)
    requires StartsWith(c + u, c + v)
    ensures StartsWith(u, v)
  {
    assert (c + u)[..|c| + |v|] == c + v;
    assert (c + u)[..|c| + |v|][|c|..] == u[..|v|];
  }

  /** Neither "/src" nor "/<name>/src" is a text prefix of "/node_modules". */
  lemma SrcNotPrefixOfNodeModules(last: string, u: string, t: string)
    requires u == "/" + "node_modules"
    requires t == "/" + "src" || t == "/" + last + ("/" + "src")
    ensures !StartsWith(u, t)
  {
    if t == "/" + "src" {
      assert t[1] != u[1];
    } else {
      assert t[1 + |last|] == '/';
      assert forall i :: 1 <= i < |u| ==> u[i] != '/';
    }
  }

  /** `Render` of a path with one more name. */
  lemma RenderAppend(segs: seq<string>, name: string)
    ensures Render(segs + [name]) == Concat(segs) + ("/" + name)
  {
    ConcatAppend(segs, [name]);
    assert [name][1..] == [];
    assert Concat([name]) == "/" + name + "";
  }

  lemma EscapeAtTop(cwd: seq<string>)
    requires cwd == []
    ensures !StartsWith(Render(Parent(cwd) + ["node_modules"]), Render(cwd + ["src"]))
  {
    var u := "/" + "node_modules";
    RenderAppend(Parent(cwd), "node_modules");
    RenderAppend(cwd, "src");
    SrcNotPrefixOfNodeModules("", u, "/" + "src");
    if StartsWith(Concat(Parent(cwd)) + u, Concat(Parent(cwd)) + ("/" + "src")) {
      StartsWithCancel(Concat(Parent(cwd)), u, "/" + "src");
    }
  }

  lemma EscapeBelowTop(cwd: seq<string>)
    requires cwd != []
    ensures !StartsWith(Render(Parent(cwd) + ["node_modules"]), Render(cwd + ["src"]))
  {
    var u := "/" + "node_modules";
    var parent, last := Parent(cwd), cwd[|cwd| - 1];
    var t := "/" + last + ("/" + "src");
    RenderAppend(parent, "node_modules");
    RenderAppend(cwd, "src");
    assert cwd == parent + [last];
    ConcatAppend(parent, [last]);
    assert Concat([last]) == "/" + last + "";
    assert Concat(cwd) + ("/" + "src") == Concat(parent) + t;
    SrcNotPrefixOfNodeModules(last, u, t);
    if StartsWith(Concat(parent) + u, Concat(parent) + t) {
      StartsWithCancel(Concat(parent), u, t);
    }
  }

  /** With root "src", the path "../node_modules" is refused whatever the working
      directory: it resolves to a sibling of the root, never to a text extension of it. */
  lemma ParentEscapeRejected(cwd: seq<string>, root: string, path: string)
    requires root == "src" && path == "../node_modules"
    ensures ValidatePath(cwd, Some(root), Some(path)).Err?
  {
    ResolveSrc(cwd, root);
    assert path == "../" + "node_modules";
    ResolveUpName(cwd, "node_modules", path);
    if cwd == [] { EscapeAtTop(cwd); } else { EscapeBelowTop(cwd); }
  }
}
