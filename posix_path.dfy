/** A lexical model of the POSIX behaviour of Node's `path` module, as far as the
    confinement checks use it: `isAbsolute`, `normalize` followed by `resolve`, and
    `relative`. A normalized absolute path is the sequence of its names; the working
    directory is an explicit argument, and the file system is never consulted. */
module PosixPath {
  import opened Common

  /** A name that may appear in a normalized path. */
  predicate IsName(s: string) {
    s != "" && s != "." && s != ".." && '/' !in s
  }

  /** The names of a normalized absolute path. */
  predicate IsNormal(segs: seq<string>) {
    forall i :: 0 <= i < |segs| ==> IsName(segs[i])
  }

  /** `path.isAbsolute` on POSIX. */
  predicate IsAbsolute(p: string) {
    |p| > 0 && p[0] == '/'
  }

  /** The text between the '/' separators of `s`, empty pieces included. */
  function Split(s: string): (parts: seq<string>)
    ensures |parts| >= 1
    ensures forall i :: 0 <= i < |parts| ==> '/' !in parts[i]
  {
    if s == [] then [""]
    else
      var rest := Split(s[1..]);
      if s[0] == '/' then [""] + rest else [[s[0]] + rest[0]] + rest[1..]
  }

  /** The pieces joined with '/' between them. */
  function JoinSlash(parts: seq<string>): string
    requires |parts| >= 1
  {
    if |parts| == 1 then parts[0] else parts[0] + "/" + JoinSlash(parts[1..])
  }

  /** Splitting loses nothing: joining the pieces again gives back the text. */
  lemma {:induction false} SplitJoin(s: string)
    ensures JoinSlash(Split(s)) == s
  {
    if s != [] {
      var rest := Split(s[1..]);
      SplitJoin(s[1..]);
      if s[0] == '/' {
        assert [""] + rest == Split(s);
        assert ([""] + rest)[1..] == rest;
      } else if |rest| > 1 {
        var parts := Split(s);
        assert parts[1..] == rest[1..];
        calc {
          JoinSlash(parts);
          ([s[0]] + rest[0]) + "/" + JoinSlash(rest[1..]);
          [s[0]] + (rest[0] + "/" + JoinSlash(rest[1..]));
          [s[0]] + s[1..];
        }
      }
    }
  }

  /** Joining pieces free of '/' and splitting again gives back the pieces. */
  lemma {:induction false} JoinSplit(parts: seq<string>)
    requires |parts| >= 1
    requires forall i :: 0 <= i < |parts| ==> '/' !in parts[i]
    ensures Split(JoinSlash(parts)) == parts
  {
    if |parts| == 1 {
      SplitName(parts[0], "");
      assert parts[0] + "" == parts[0];
    } else {
      var t := JoinSlash(parts[1..]);
      JoinSplit(parts[1..]);
      assert ("/" + t)[1..] == t;
      assert Split("/" + t) == [""] + parts[1..];
      assert parts[0] + "/" + t == parts[0] + ("/" + t);
      SplitName(parts[0], "/" + t);
      assert parts[0] + "" == parts[0];
      assert [parts[0]] + parts[1..] == parts;
    }
  }

  /** The names of the parent directory; the root is its own parent. */
  function Parent(segs: seq<string>): (r: seq<string>)
    ensures segs != [] ==> segs == r + [segs[|segs| - 1]]
    ensures segs == [] ==> r == []
  {
    if segs == [] then [] else segs[..|segs| - 1]
  }

  /** What one piece of a path does to the names resolved so far. */
  function StepPart(stack: seq<string>, part: string): seq<string> {
    if part == "" || part == "." then stack
    else if part == ".." then Parent(stack)
    else stack + [part]
  }

  /** The pieces applied from left to right. */
  function Fold(stack: seq<string>, parts: seq<string>): seq<string>
    decreases |parts|
  {
    if parts == [] then stack else Fold(StepPart(stack, parts[0]), parts[1..])
  }

  lemma {:induction false} FoldNormal(stack: seq<string>, parts: seq<string>)
    requires IsNormal(stack)
    requires forall i :: 0 <= i < |parts| ==> '/' !in parts[i]
    ensures IsNormal(Fold(stack, parts))
    decreases |parts|
  {
    if parts != [] {
      FoldNormal(StepPart(stack, parts[0]), parts[1..]);
    }
  }

  /** `path.resolve(base, path.normalize(p))`: an absolute `p` ignores `base`. The
      separate `normalize` step changes nothing lexically, so both are one fold. */
  function Resolve(base: seq<string>, p: string): (r: seq<string>)
    ensures IsNormal(base) ==> IsNormal(r)
    ensures IsAbsolute(p) ==> r == Fold([], Split(p))
  {
    var start := if IsAbsolute(p) then [] else base;
    FoldNormal(if IsNormal(base) then start else [], Split(p));
    Fold(start, Split(p))
  }

  /** Resolution of a text given by its '/'-separated pieces. */
  lemma ResolvePieces(base: seq<string>, p: string, parts: seq<string>)
    requires |parts| >= 1 && JoinSlash(parts) == p
    requires forall i :: 0 <= i < |parts| ==> '/' !in parts[i]
    ensures Resolve(base, p) == Fold(if IsAbsolute(p) then [] else base, parts)
  {
    JoinSplit(parts);
  }

  /** A trailing '/' adds one empty piece at the end. */
  lemma {:induction false} SplitTrailingSlash(p: string)
    ensures Split(p + "/") == Split(p) + [""]
  {
    if p != [] {
      assert (p + "/")[1..] == p[1..] + "/";
      SplitTrailingSlash(p[1..]);
    }
  }

  /** An empty piece at the end changes nothing. */
  lemma {:induction false} FoldTrailingEmpty(stack: seq<string>, parts: seq<string>)
    ensures Fold(stack, parts + [""]) == Fold(stack, parts)
    decreases |parts|
  {
    if parts != [] {
      assert (parts + [""])[1..] == parts[1..] + [""];
      FoldTrailingEmpty(StepPart(stack, parts[0]), parts[1..]);
    }
  }

  /** A trailing '/' on a non-empty path does not change what it resolves to:
      `path.resolve` drops it. */
  lemma ResolveTrailingSlash(base: seq<string>, p: string)
    requires p != ""
    ensures Resolve(base, p + "/") == Resolve(base, p)
  {
    SplitTrailingSlash(p);
    FoldTrailingEmpty(if IsAbsolute(p) then [] else base, Split(p));
    assert (p + "/")[0] == p[0];
  }

  /** "/a/b" for the names a, b; "" for no names. */
  function Concat(segs: seq<string>): string {
    if segs == [] then "" else "/" + segs[0] + Concat(segs[1..])
  }

  /** The text form of a normalized absolute path: "/" or "/a/b", never a trailing '/'. */
  function Render(segs: seq<string>): (p: string)
    ensures IsAbsolute(p)
  {
    if segs == [] then "/" else Concat(segs)
  }

  /** The text of a non-empty path is its names joined with '/', after a leading '/'. */
  lemma {:induction false} ConcatJoin(segs: seq<string>)
    requires segs != []
    ensures Concat(segs) == "/" + JoinSlash(segs)
  {
    if |segs| == 1 {
      assert segs[1..] == [];
      assert Concat(segs) == "/" + segs[0] + "";
    } else {
      ConcatJoin(segs[1..]);
      calc {
        Concat(segs);
        "/" + segs[0] + Concat(segs[1..]);
        "/" + segs[0] + ("/" + JoinSlash(segs[1..]));
        "/" + (segs[0] + "/" + JoinSlash(segs[1..]));
      }
    }
  }

  /** An absolute text whose pieces are already names is rendered back unchanged. */
  lemma RenderPieces(segs: seq<string>, p: string)
    requires segs != [] && JoinSlash([""] + segs) == p
    ensures Render(segs) == p
  {
    ConcatJoin(segs);
    assert ([""] + segs)[1..] == segs;
  }

  lemma {:induction false} ConcatAppend(a: seq<string>, b: seq<string>)
    ensures Concat(a + b) == Concat(a) + Concat(b)
  {
    if a != [] {
      assert (a + b)[0] == a[0];
      assert (a + b)[1..] == a[1..] + b;
      ConcatAppend(a[1..], b);
      assert Concat(a) == "/" + a[0] + Concat(a[1..]);
      calc {
        Concat(a + b);
        "/" + a[0] + Concat(a[1..] + b);
        "/" + a[0] + (Concat(a[1..]) + Concat(b));
        ("/" + a[0] + Concat(a[1..])) + Concat(b);
      }
    } else {
      assert a + b == b;
    }
  }

  /** A path whose names extend the root's names has the root's text as a prefix. */
  lemma PrefixRendersPrefix(r: seq<string>, p: seq<string>)
    requires r <= p
    ensures StartsWith(Render(p), Render(r))
  {
    if r != [] {
      assert p == r + p[|r|..];
      ConcatAppend(r, p[|r|..]);
    }
  }

  lemma {:induction false} SplitName(w: string, t: string)
    requires '/' !in w
    ensures Split(w + t) == [w + Split(t)[0]] + Split(t)[1..]
  {
    if w != [] {
      assert w[0] in w;
      assert (w + t)[0] == w[0] != '/';
      assert (w + t)[1..] == w[1..] + t;
      SplitName(w[1..], t);
      var rest := Split(w[1..] + t);
      assert rest[0] == w[1..] + Split(t)[0];
      assert rest[1..] == Split(t)[1..];
      assert [w[0]] + (w[1..] + Split(t)[0]) == w + Split(t)[0];
    } else {
      assert w + t == t;
      assert w + Split(t)[0] == Split(t)[0];
    }
  }

  lemma {:induction false} SplitConcat(segs: seq<string>)
    requires IsNormal(segs)
    ensures Split(Concat(segs)) == [""] + segs
  {
    if segs == [] {
    } else {
      var y := Concat(segs[1..]);
      SplitConcat(segs[1..]);
      assert ("/" + segs[0] + y)[1..] == segs[0] + y;
      SplitName(segs[0], y);
      assert segs[0] + "" == segs[0];
      assert [segs[0]] + segs[1..] == segs;
    }
  }

  lemma {:induction false} FoldNames(stack: seq<string>, segs: seq<string>)
    requires IsNormal(segs)
    ensures Fold(stack, segs) == stack + segs
    decreases |segs|
  {
    if segs != [] {
      FoldNames(stack + [segs[0]], segs[1..]);
      assert stack + [segs[0]] + segs[1..] == stack + segs;
    }
  }

  /** Resolving the text of a normalized path gives back its names, whatever the base:
      resolution is idempotent on its own results. */
  lemma ResolveRender(base: seq<string>, segs: seq<string>)
    requires IsNormal(segs)
    ensures Resolve(base, Render(segs)) == segs
  {
    if segs == [] {
      assert Split("/") == ["", ""];
      assert Fold([], ["", ""]) == [];
    } else {
      SplitConcat(segs);
      FoldNames([], segs);
    }
  }

  /** The length of the longest common prefix of two name sequences. */
  function CommonLength(a: seq<string>, b: seq<string>): (k: nat)
    ensures k <= |a| && k <= |b| && a[..k] == b[..k]
    ensures k < |a| && k < |b| ==> a[k] != b[k]
  {
    if a == [] || b == [] || a[0] != b[0] then 0
    else
      var k := 1 + CommonLength(a[1..], b[1..]);
      assert a[..k] == [a[0]] + a[1..][..k - 1];
      assert b[..k] == [b[0]] + b[1..][..k - 1];
      k
  }

  function Ups(n: nat): (r: seq<string>)
    ensures |r| == n && forall i :: 0 <= i < n ==> r[i] == ".."
  {
    seq(n, _ => "..")
  }

  /** A prefix is its own common part with the longer sequence. */
  lemma {:induction false} CommonLengthOfPrefix(from: seq<string>, to: seq<string>)
    ensures from <= to ==> CommonLength(from, to) == |from|
  {
    if from != [] && from <= to {
      assert from[1..] <= to[1..];
      CommonLengthOfPrefix(from[1..], to[1..]);
    }
  }

  /** `path.relative(from, to)` on POSIX for two resolved paths: one ".." per name of
      `from` below the common prefix, then the rest of `to`, joined with '/'. */
  function Relative(from: seq<string>, to: seq<string>): (r: string)
    ensures from == to ==> r == ""
    ensures from < to ==> r == JoinSlash(to[|from|..])
  {
    if from == to then ""
    else
      CommonLengthOfPrefix(from, to);
      var k := CommonLength(from, to);
      assert k == |from| ==> Ups(|from| - k) + to[k..] == to[k..];
      var parts := Ups(|from| - k) + to[k..];
      if parts == [] then "" else JoinSlash(parts)
  }

  lemma {:induction false} JoinSlashHead(parts: seq<string>)
    requires |parts| >= 1
    ensures StartsWith(JoinSlash(parts), parts[0])
  {
    if |parts| > 1 {
      assert JoinSlash(parts) == parts[0] + ("/" + JoinSlash(parts[1..]));
    }
  }

  /** On POSIX `relative` never yields an absolute path: its first piece is ".." or a name. */
  lemma RelativeNotAbsolute(from: seq<string>, to: seq<string>)
    requires IsNormal(to)
    ensures !IsAbsolute(Relative(from, to))
  {
    if from != to {
      var k := CommonLength(from, to);
      var parts := Ups(|from| - k) + to[k..];
      if parts != [] {
        JoinSlashHead(parts);
        assert parts[0] == ".." || parts[0] == to[k];
      }
    }
  }

  /** The relative path starts with the two characters ".." exactly when `to` is not at
      or under `from`, or when its first name below `from` itself starts with "..". */
  lemma RelativeStartsWithDotDot(from: seq<string>, to: seq<string>)
    requires IsNormal(from) && IsNormal(to)
    ensures StartsWith(Relative(from, to), "..")
        <==> !(from <= to && (|to| == |from| || !StartsWith(to[|from|], "..")))
  {
    var k := CommonLength(from, to);
    var parts := Ups(|from| - k) + to[k..];
    if from == to {
    } else if k < |from| {
      JoinSlashHead(parts);
      assert parts[0] == "..";
      assert !(from <= to) by {
        assert |to| <= k || from[..k + 1] != to[..k + 1];
      }
    } else {
      assert from <= to;
      assert parts == to[k..];
      if parts != [] {
        JoinSlashHead(parts);
        var first := to[|from|];
        assert parts[0] == first;
        var j := JoinSlash(parts);
        if |first| >= 2 {
          assert j[..2] == first[..2];
        } else {
          assert first == [first[0]];
          assert j[0] == first[0];
        }
      }
    }
  }
}
