/**
 * `FileUtils`: the parent folder of a remote path, and the character checks
 * that decide whether a file name or a path may be sent to the server.
 * Servers that support forbidden characters only refuse the path separator
 * in a name; older ones also refuse `\ < > : " | ? *`.
 */
module FileUtils {
  import opened Wrappers
  import opened Strings
  import opened Http

  const PathSeparator := "/"

  /** The characters other than the separator that older servers refuse. */
  const ForbiddenChars: seq<char> := ['\\', '<', '>', ':', '"', '|', '?', '*']

  /** `isValidName`. */
  predicate IsValidName(fileName: string, versionSupportsForbiddenChars: bool): (valid: bool)
    ensures valid ==> !Contains(fileName, PathSeparator)
  {
    !((versionSupportsForbiddenChars && Contains(fileName, PathSeparator)) ||
      (!versionSupportsForbiddenChars &&
        (Contains(fileName, PathSeparator) || Contains(fileName, "\\") || Contains(fileName, "<") ||
         Contains(fileName, ">") || Contains(fileName, ":") || Contains(fileName, "\"") ||
         Contains(fileName, "|") || Contains(fileName, "?") || Contains(fileName, "*"))))
  }

  /** `isValidPath`. */
  predicate IsValidPath(path: string, versionSupportsForbiddenChars: bool): (valid: bool)
    ensures versionSupportsForbiddenChars ==> valid
    ensures !valid ==> Contains(path, ":") || Contains(path, "\\") || Contains(path, "<") || Contains(path, ">") ||
                       Contains(path, "\"") || Contains(path, "|") || Contains(path, "?") || Contains(path, "*")
  {
    !(!versionSupportsForbiddenChars &&
      (Contains(path, "\\") || Contains(path, "<") || Contains(path, ">") ||
       Contains(path, ":") || Contains(path, "\"") || Contains(path, "|") ||
       Contains(path, "?") || Contains(path, "*")))
  }

  /** Whether `s` holds one of the characters older servers refuse. */
  predicate HasForbiddenChar(s: string) {
    exists i :: 0 <= i < |s| && s[i] in ForbiddenChars
  }

  /** The one-character `contains` tests of the checks are membership tests. */
  lemma ForbiddenContains(s: string)
    ensures (Contains(s, "\\") || Contains(s, "<") || Contains(s, ">") || Contains(s, ":") ||
             Contains(s, "\"") || Contains(s, "|") || Contains(s, "?") || Contains(s, "*"))
            <==> HasForbiddenChar(s)
  {
    forall c | c in ForbiddenChars
      ensures Contains(s, [c]) <==> c in s
    {
      ContainsChar(s, c);
    }
    assert "\\" == [ForbiddenChars[0]] && "<" == [ForbiddenChars[1]] && ">" == [ForbiddenChars[2]];
    assert ":" == [ForbiddenChars[3]] && "\"" == [ForbiddenChars[4]] && "|" == [ForbiddenChars[5]];
    assert "?" == [ForbiddenChars[6]] && "*" == [ForbiddenChars[7]];
    if HasForbiddenChar(s) {
      var i :| 0 <= i < |s| && s[i] in ForbiddenChars;
      assert s[i] in s;
    }
  }

  /** A name with a separator is refused whatever the server. */
  lemma NameWithSeparatorInvalid(fileName: string, versionSupportsForbiddenChars: bool)
    requires '/' in fileName
    ensures !IsValidName(fileName, versionSupportsForbiddenChars)
  {
    ContainsChar(fileName, '/');
  }

  /** On an older server a name is refused exactly when it holds a separator or a forbidden character. */
  lemma ValidNameOnOlderServer(fileName: string)
    ensures IsValidName(fileName, false) <==> '/' !in fileName && !HasForbiddenChar(fileName)
  {
    ContainsChar(fileName, '/');
    ForbiddenContains(fileName);
  }

  /** On a newer server a name is refused exactly when it holds a separator. */
  lemma ValidNameOnNewerServer(fileName: string)
    ensures IsValidName(fileName, true) <==> '/' !in fileName
  {
    ContainsChar(fileName, '/');
  }

  /** Every path is valid for a newer server; on an older one the separator is allowed and the rest refused. */
  lemma ValidPathCharacterisation(path: string)
    ensures IsValidPath(path, true)
    ensures IsValidPath(path, false) <==> !HasForbiddenChar(path)
  {
    ForbiddenContains(path);
  }

  /** A valid name is a valid path. */
  lemma ValidNameIsValidPath(s: string, versionSupportsForbiddenChars: bool)
    requires IsValidName(s, versionSupportsForbiddenChars)
    ensures IsValidPath(s, versionSupportsForbiddenChars)
  {
  }

  /** `s` with every separator that follows another separator removed. */
  function CollapseSlashes(s: string): (r: string)
    ensures |r| <= |s|
    ensures s != [] ==> r != [] && r[|r| - 1] == s[|s| - 1] && r[0] == s[0]
    ensures forall i :: 0 < i < |r| ==> !(r[i - 1] == '/' && r[i] == '/')
  {
    if |s| <= 1 then s
    else if s[|s| - 1] == '/' && s[|s| - 2] == '/' then CollapseSlashes(s[..|s| - 1])
    else CollapseSlashes(s[..|s| - 1]) + [s[|s| - 1]]
  }

  /**
   * How `java.io.File` normalises a Unix path name: runs of separators
   * become one and a trailing separator is dropped, except from the root.
   */
  function JavaNormalize(s: string): (r: string)
    ensures |r| <= |s| && IsNormalized(r)
  {
    var c := CollapseSlashes(s);
    if |c| > 1 && c[|c| - 1] == '/' then c[..|c| - 1] else c
  }

  /** A path name `java.io.File` keeps as it is. */
  predicate IsNormalized(p: string) {
    (forall i :: 0 < i < |p| ==> !(p[i - 1] == '/' && p[i] == '/')) &&
    (p == "/" || p == [] || p[|p| - 1] != '/')
  }

  lemma {:induction false} CollapseNormalized(p: string)
    requires forall i :: 0 < i < |p| ==> !(p[i - 1] == '/' && p[i] == '/')
    ensures CollapseSlashes(p) == p
  {
    if |p| > 1 {
      var q := p[..|p| - 1];
      assert forall i :: 0 <= i < |q| ==> q[i] == p[i];
      CollapseNormalized(q);
      assert p == q + [p[|p| - 1]];
    }
  }

  /** Normalisation leaves a normalised path alone. */
  lemma NormalizeNormalized(p: string)
    requires IsNormalized(p)
    ensures JavaNormalize(p) == p
  {
    CollapseNormalized(p);
  }

  /** Normalising twice is normalising once. */
  lemma NormalizeIdempotent(s: string)
    ensures JavaNormalize(JavaNormalize(s)) == JavaNormalize(s)
  {
    NormalizeNormalized(JavaNormalize(s));
  }

  /**
   * `File.getParent` on a normalised path name: the text before the last
   * separator, the root for a file at the root, and no parent for the root
   * or a relative name without a separator.
   */
  function FileParent(p: string): (r: Option<string>)
    ensures r.Some? ==> |r.value| < |p| && StartsWith(p, r.value)
  {
    var prefixLength := if |p| > 0 && p[0] == '/' then 1 else 0;
    var index := LastIndexOfChar(p, '/');
    if index < prefixLength then
      if prefixLength > 0 && |p| > prefixLength then Some(p[..prefixLength]) else None
    else Some(p[..index])
  }

  /**
   * `getParentPath`: the parent of the path with a trailing separator. A path
   * with no parent makes `getParent` return null and the separator test throw
   * `NullPointerException`.
   */
  function GetParentPath(remotePath: string): (r: Outcome<string>)
    ensures r.Returned? ==> EndsWith(r.value, PathSeparator)
    ensures r.Threw? <==> FileParent(JavaNormalize(remotePath)).None?
    ensures r.Threw? ==> r.exception == NullPointer
  {
    match FileParent(JavaNormalize(remotePath))
    case None => Threw(NullPointer)
    case Some(parentPath) =>
      if EndsWith(parentPath, PathSeparator) then Returned(parentPath)
      else
        assert EndsWith(parentPath + PathSeparator, PathSeparator);
        Returned(parentPath + PathSeparator)
  }

  /** A file directly under the root has the root as its parent folder. */
  lemma ParentAtRoot(name: string)
    requires name != [] && '/' !in name
    ensures GetParentPath(PathSeparator + name) == Returned(PathSeparator)
  {
    var p := PathSeparator + name;
    assert forall i :: 0 < i < |p| ==> p[i] == name[i - 1];
    NormalizeNormalized(p);
    assert LastIndexOfChar(p, '/') == 0;
  }

  /** The last occurrence of `c` is at `k` when `c` is there and not after it. */
  lemma LastIndexOfCharAt(s: string, c: char, k: nat)
    requires k < |s| && s[k] == c && c !in s[k + 1..]
    ensures LastIndexOfChar(s, c) == k
  {
    var r := LastIndexOfChar(s, c);
    assert s[k] in s;
    forall j | k < j < |s|
      ensures s[j] != c
    {
      assert s[j] == s[k + 1..][j - k - 1];
    }
    forall j | r < j < |s|
      ensures s[j] != c
    {
      assert s[j] == s[r + 1..][j - r - 1];
    }
  }

  /** A child name appended to a normalised folder gives a normalised path. */
  lemma ChildNormalized(dir: string, name: string)
    requires IsNormalized(dir) && dir != [] && dir != PathSeparator
    requires name != [] && '/' !in name
    ensures IsNormalized(dir + PathSeparator + name)
  {
    var p := dir + PathSeparator + name;
    forall i | 0 < i < |p|
      ensures !(p[i - 1] == '/' && p[i] == '/')
    {
      if i < |dir| {
        assert p[i - 1] == dir[i - 1] && p[i] == dir[i];
      } else if i == |dir| {
        assert p[i - 1] == dir[|dir| - 1];
      } else {
        assert p[i] == name[i - |dir| - 1];
      }
    }
    assert p[|p| - 1] == name[|name| - 1];
  }

  /** A file in a folder `dir` (a normalised absolute path other than the root) has `dir/` as its parent folder. */
  lemma ParentOfChild(dir: string, name: string)
    requires IsNormalized(dir) && StartsWith(dir, PathSeparator) && dir != PathSeparator
    requires name != [] && '/' !in name
    ensures GetParentPath(dir + PathSeparator + name) == Returned(dir + PathSeparator)
  {
    var p := dir + PathSeparator + name;
    ChildNormalized(dir, name);
    NormalizeNormalized(p);
    assert p[|dir| + 1..] == name;
    LastIndexOfCharAt(p, '/', |dir|);
    assert p[..|dir|] == dir;
    assert dir[0] == '/';
    assert dir[|dir| - 1] != '/';
  }
}
