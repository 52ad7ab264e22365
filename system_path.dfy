/**
 * `Path.GetExtension`, which the loader uses to tell the brick file type.
 * The extension is the text from the last '.' to the end of the path,
 * provided that '.' comes after the last directory or volume separator and
 * is not the path's last character; otherwise it is empty.
 */
module SystemPath {

  /** Directory, alternate directory and volume separators of a Windows path. */
  predicate IsSeparator(c: char) {
    c == '\\' || c == '/' || c == ':'
  }

  /** No '.' and no separator in `path[from..]`. */
  ghost predicate PlainTail(path: string, from: nat)
    requires from <= |path|
  {
    forall k :: from <= k < |path| ==> path[k] != '.' && !IsSeparator(path[k])
  }

  /** `j` is where the extension of `path` starts. */
  ghost predicate ExtensionAt(path: string, j: int) {
    0 <= j && j + 1 < |path| && path[j] == '.' && PlainTail(path, j + 1)
  }

  /** The extension of `path`, including its leading '.'. */
  function Extension(path: string): string {
    ScanBack(path, |path|)
  }

  /** Looks for the extension's '.' at `path[i - 1]` and before it. */
  function ScanBack(path: string, i: nat): string
    requires i <= |path|
    decreases i
  {
    if i == 0 then ""
    else if path[i - 1] == '.' then (if i == |path| then "" else path[i - 1..])
    else if IsSeparator(path[i - 1]) then ""
    else ScanBack(path, i - 1)
  }

  /** What `ScanBack` finds is empty or a suffix of `path` that starts with '.' before `i`. */
  lemma {:induction false} ScanBackSuffix(path: string, i: nat)
    requires i <= |path|
    ensures var e := ScanBack(path, i);
            e == "" || (2 <= |e| <= |path| && |path| - |e| < i && e == path[|path| - |e|..] && e[0] == '.')
    decreases i
  {
    if i > 0 && path[i - 1] != '.' && !IsSeparator(path[i - 1]) {
      ScanBackSuffix(path, i - 1);
    }
  }

  /** An extension is empty or a suffix of the path of at least two characters that starts with '.'. */
  lemma ExtensionIsSuffix(path: string)
    ensures var e := Extension(path);
            e == "" || (2 <= |e| <= |path| && e == path[|path| - |e|..] && e[0] == '.')
  {
    ScanBackSuffix(path, |path|);
  }

  lemma {:induction false} ScanBackFinds(path: string, i: nat, j: int)
    requires i <= |path| && PlainTail(path, i)
    requires j < i && ExtensionAt(path, j)
    ensures ScanBack(path, i) == path[j..]
    decreases i
  {
    if i - 1 != j {
      assert path[i - 1] != '.' && !IsSeparator(path[i - 1]) by {
        assert j + 1 <= i - 1 < |path|;
      }
      ScanBackFinds(path, i - 1, j);
    }
  }

  lemma {:induction false} ScanBackOnlyAtExtension(path: string, i: nat)
    requires i <= |path| && PlainTail(path, i)
    requires ScanBack(path, i) != ""
    ensures ExtensionAt(path, |path| - |ScanBack(path, i)|)
    decreases i
  {
    ScanBackSuffix(path, i);
    if path[i - 1] != '.' && !IsSeparator(path[i - 1]) {
      ScanBackOnlyAtExtension(path, i - 1);
    }
  }

  /**
   * The extension is found exactly when there is a '.' that is neither the
   * last character nor followed by another '.' or a separator, and then it
   * is the text from that '.' on.
   */
  lemma ExtensionCharacterised(path: string)
    ensures forall j :: ExtensionAt(path, j) ==> Extension(path) == path[j..]
    ensures Extension(path) != "" ==> ExtensionAt(path, |path| - |Extension(path)|)
    ensures Extension(path) == "" <==> forall j :: !ExtensionAt(path, j)
  {
    forall j | ExtensionAt(path, j)
      ensures Extension(path) == path[j..]
    {
      ScanBackFinds(path, |path|, j);
    }
    ExtensionIsSuffix(path);
    if Extension(path) != "" {
      ScanBackOnlyAtExtension(path, |path|);
    }
  }

  /** The two file types the renderer distinguishes. */
  lemma ExtensionExamples()
    ensures Extension("bricks/brick_0.hz") == ".hz"
    ensures Extension("brick_0.raw") == ".raw"
    ensures Extension("brick.") == ""
  {
    ExtensionCharacterised("bricks/brick_0.hz");
    assert ExtensionAt("bricks/brick_0.hz", 14);
    ExtensionCharacterised("brick_0.raw");
    assert ExtensionAt("brick_0.raw", 7);
    ExtensionCharacterised("brick.");
  }
}
