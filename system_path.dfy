/**
 * The three members of System.IO.Path the exporter relies on, with their .NET Framework
 * behaviour on Windows: the file name is what follows the last directory or volume separator
 * ('\\', '/' or ':'), and the extension starts at the last '.' of the file name.
 */
module SystemPath {
  import opened Wrappers

  predicate IsSeparator(c: char) { c == '\\' || c == '/' || c == ':' }

  predicate NoSeparator(s: string) { forall i :: 0 <= i < |s| ==> !IsSeparator(s[i]) }

  predicate NoDot(s: string) { forall i :: 0 <= i < |s| ==> s[i] != '.' }

  /** The index just after the last separator of `path`, or 0 when there is none. */
  function NameStart(path: string): (k: nat)
    ensures k <= |path|
    ensures NoSeparator(path[k..])
    ensures k > 0 ==> IsSeparator(path[k - 1])
  {
    if |path| == 0 then 0
    else if IsSeparator(path[|path| - 1]) then |path|
    else
      var k := NameStart(path[..|path| - 1]);
      assert path[k..] == path[..|path| - 1][k..] + [path[|path| - 1]];
      k
  }

  /** The index of the last '.' in `s`, if any (`string.LastIndexOf('.')`). */
  function LastDot(s: string): (r: Option<nat>)
    ensures r.None? ==> NoDot(s)
    ensures r.Some? ==> r.value < |s| && s[r.value] == '.' && NoDot(s[r.value + 1..])
  {
    if |s| == 0 then None
    else if s[|s| - 1] == '.' then Some(|s| - 1)
    else
      var r := LastDot(s[..|s| - 1]);
      assert r.Some? ==> s[r.value + 1..] == s[..|s| - 1][r.value + 1..] + [s[|s| - 1]];
      r
  }

  /** The last '.' is the one with no '.' after it. */
  lemma LastDotAt(s: string, j: nat)
    requires j < |s| && s[j] == '.' && NoDot(s[j + 1..])
    ensures LastDot(s) == Some(j)
  {
    assert !NoDot(s);
  }

  /** The file name starts after the separator that has no separator after it. */
  lemma NameStartAt(path: string, k: nat)
    requires 0 < k <= |path| && IsSeparator(path[k - 1]) && NoSeparator(path[k..])
    ensures NameStart(path) == k
  {
  }

  /** `Path.GetFileName`. */
  function GetFileName(path: string): string
  {
    path[NameStart(path)..]
  }

  /** `Path.GetFileNameWithoutExtension`: the file name up to, not including, its last '.'. */
  function GetFileNameWithoutExtension(path: string): string
  {
    var name := GetFileName(path);
    match LastDot(name)
    case None => name
    case Some(i) => name[..i]
  }

  /** `Path.GetExtension`: from the last '.' of the file name on, or "" when the name has no
      '.' or ends with it. */
  function GetExtension(path: string): string
  {
    var name := GetFileName(path);
    match LastDot(name)
    case None => ""
    case Some(i) => if i == |name| - 1 then "" else name[i..]
  }

  /** The file name is the trailing separator-free part of the path. */
  lemma FileNameIsLastSegment(path: string)
    ensures NoSeparator(GetFileName(path))
    ensures |GetFileName(path)| <= |path| && path[|path| - |GetFileName(path)|..] == GetFileName(path)
    ensures GetFileName(path) == path || IsSeparator(path[|path| - |GetFileName(path)| - 1])
  {
  }

  /** A separator-free string is its own file name, and its stem is a prefix of it. */
  lemma FileNameOfPlainName(s: string)
    requires NoSeparator(s)
    ensures GetFileName(s) == s
    ensures var stem := GetFileNameWithoutExtension(s); |stem| <= |s| && stem == s[..|stem|]
  {
    var k := NameStart(s);
    assert k == 0;
    assert GetFileName(s) == s;
    match LastDot(s)
    case None =>
    case Some(i) =>
      assert GetFileNameWithoutExtension(s) == s[..i];
  }

  /** The stem and the extension split the file name at its last '.'; only a name that ends in
      '.' loses that dot from both parts. The stem keeps every earlier dot, the extension has
      no dot but its first character. */
  lemma StemAndExtension(path: string)
    ensures var name, stem, ext := GetFileName(path), GetFileNameWithoutExtension(path), GetExtension(path);
      && (name == stem + ext || (name == stem + "." && ext == ""))
      && NoSeparator(stem) && NoSeparator(ext)
      && (ext == "" || (ext[0] == '.' && |ext| > 1 && NoDot(ext[1..])))
      && (NoDot(name) ==> stem == name && ext == "")
  {
    var name := GetFileName(path);
    match LastDot(name)
    case None =>
    case Some(i) =>
      assert name == name[..i] + name[i..];
      if i == |name| - 1 {
        assert name[i..] == ".";
      } else {
        assert name[i..][1..] == name[i + 1..];
      }
  }
}
