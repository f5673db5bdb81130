/** The separator normalization of test-path-normalization.js: every backslash of a path
    becomes '/' (the `replace(/\\/g, '/')` at line 23 and again at line 36), and the small
    command builder that appends the normalized path after the pattern. */
module PathNormalization {
  import opened Common

  /** Each backslash replaced by '/', everything else kept in place. */
  function Normalize(s: string): (r: string)
    ensures |r| == |s|
    ensures forall i :: 0 <= i < |s| ==> r[i] == (if s[i] == '\\' then '/' else s[i])
  {
    if s == [] then []
    else [if s[0] == '\\' then '/' else s[0]] + Normalize(s[1..])
  }

  /** The normalized text holds no backslash, and its '/' are exactly the input's '/' and
      backslashes. */
  lemma NoBackslashLeft(s: string)
    ensures '\\' !in Normalize(s)
    ensures forall i :: 0 <= i < |s| ==> (Normalize(s)[i] == '/' <==> s[i] == '/' || s[i] == '\\')
  {
  }

  /** A text without backslashes is left unchanged. */
  lemma UnchangedWithoutBackslash(s: string)
    requires '\\' !in s
    ensures Normalize(s) == s
  {
  }

  /** Normalizing twice is normalizing once. */
  lemma Idempotent(s: string)
    ensures Normalize(Normalize(s)) == Normalize(s)
  {
    NoBackslashLeft(s);
    UnchangedWithoutBackslash(Normalize(s));
  }

  /** A Windows path from the table comes out with forward slashes. */
  lemma WindowsPathNormalized(s: string)
    requires s == "C:\\project\\src"
    ensures Normalize(s) == "C:/project/src"
  {
    var r := Normalize(s);
    assert |r| == 14;
    assert s[2] == '\\' && s[10] == '\\';
    assert forall i :: 0 <= i < 14 ==> r[i] == "C:/project/src"[i];
  }

  /** `buildTestCommand(pattern, searchPath)`: "rg" and the pattern, then the normalized path
      when one is given that is not empty. */
  method BuildTestCommand(pattern: string, searchPath: Option<string>) returns (cmd: seq<string>)
    ensures |cmd| >= 2 && cmd[0] == "rg" && cmd[1] == pattern
    ensures NonEmpty(searchPath) ==> |cmd| == 3 && cmd[2] == Normalize(searchPath.value)
    ensures !NonEmpty(searchPath) ==> |cmd| == 2
  {
    cmd := ["rg", pattern];
    if NonEmpty(searchPath) {
      var normalizedPath := Normalize(searchPath.value);
      cmd := cmd + [normalizedPath];
    }
  }
}
