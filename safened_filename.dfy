/**
 * SafenedFilename: a texture path together with a file name restricted to word characters,
 * built once from the path and never changed.
 */
module SafenedFilename {
  import opened Wrappers
  import opened SystemPath

  datatype SafenedFilename = SafenedFilename(fileLocation: string, safeFileName: string)

  predicate IsLetterOrDigit(c: char) { 'a' <= c <= 'z' || 'A' <= c <= 'Z' || '0' <= c <= '9' }

  /** The characters `[A-Za-z0-9_]` a sanitised stem is made of. */
  predicate IsWordChar(c: char) { IsLetterOrDigit(c) || c == '_' }

  /** The characters the first pass keeps: the class `[a-zA-Z0-9_.]`. */
  predicate IsKept(c: char) { IsWordChar(c) || c == '.' }

  /** What the regular expression `\s` matches. */
  predicate IsWhitespace(c: char)
  {
    c == ' ' || '\t' <= c <= '\r' || c == '\U{0085}' || c == '\U{00A0}' || c == '\U{1680}'
    || '\U{2000}' <= c <= '\U{200A}' || c == '\U{2028}' || c == '\U{2029}' || c == '\U{202F}'
    || c == '\U{205F}' || c == '\U{3000}'
  }

  predicate AllWordChars(s: string) { forall i :: 0 <= i < |s| ==> IsWordChar(s[i]) }

  predicate AllKept(s: string) { forall i :: 0 <= i < |s| ==> IsKept(s[i]) }

  /** Replacing the matches of `[^a-zA-Z0-9_.]+` with "". */
  function RemoveSpecial(s: string): (r: string)
    ensures AllKept(r)
  {
    if |s| == 0 then ""
    else (if IsKept(s[0]) then [s[0]] else []) + RemoveSpecial(s[1..])
  }

  /** Replacing the matches of `\s+` with "". */
  function RemoveWhitespace(s: string): string
  {
    if |s| == 0 then ""
    else (if IsWhitespace(s[0]) then [] else [s[0]]) + RemoveWhitespace(s[1..])
  }

  /** `s.Replace(".", "_")`. */
  function ReplaceDots(s: string): (r: string)
    ensures |r| == |s|
    ensures forall i :: 0 <= i < |s| ==> r[i] == if s[i] == '.' then '_' else s[i]
  {
    seq(|s|, i requires 0 <= i < |s| => if s[i] == '.' then '_' else s[i])
  }

  /** The stem part of `RemoveSpecialCharacters`: both passes, then the file name without its
      last extension, then dots to underscores. */
  function SanitisedStem(fileName: string): string
  {
    ReplaceDots(GetFileNameWithoutExtension(RemoveWhitespace(RemoveSpecial(fileName))))
  }

  /** `RemoveSpecialCharacters(fileName, ext)`: the extension is appended as it is. */
  function RemoveSpecialCharacters(fileName: string, ext: string): (r: string)
    ensures |r| >= |ext| && r[|r| - |ext|..] == ext
    ensures AllWordChars(r[..|r| - |ext|])
  {
    var stem := SanitisedStem(fileName);
    SanitisedStemIsWordChars(fileName);
    assert (stem + ext)[..|stem|] == stem;
    stem + ext
  }

  /** The constructor: `FileLocation` is the path; `SafeFileName` is the sanitised stem of the
      path followed by the path's own extension, unsanitised. */
  function Create(path: string): (r: SafenedFilename)
    ensures r.fileLocation == path
    ensures var ext := GetExtension(path);
      |r.safeFileName| >= |ext| && r.safeFileName[|r.safeFileName| - |ext|..] == ext
      && AllWordChars(r.safeFileName[..|r.safeFileName| - |ext|])
  {
    SafenedFilename(path, RemoveSpecialCharacters(GetFileNameWithoutExtension(path), GetExtension(path)))
  }

  // ---------------------------------------------------------------------------------------
  // Properties

  lemma WhitespaceIsNotKept(c: char)
    requires IsWhitespace(c)
    ensures !IsKept(c)
  {
  }

  lemma {:induction false} RemoveWhitespaceOfKept(s: string)
    requires AllKept(s)
    ensures RemoveWhitespace(s) == s
  {
    if |s| > 0 {
      if IsWhitespace(s[0]) {
        WhitespaceIsNotKept(s[0]);
      }
      RemoveWhitespaceOfKept(s[1..]);
    }
  }

  /** The whitespace pass never removes anything: the first pass already removed every
      whitespace character. */
  lemma WhitespacePassIsNoOp(fileName: string)
    ensures RemoveWhitespace(RemoveSpecial(fileName)) == RemoveSpecial(fileName)
  {
    RemoveWhitespaceOfKept(RemoveSpecial(fileName));
  }

  /** After the first pass the whole string is one separator-free file name. */
  lemma KeptHasNoSeparator(s: string)
    requires AllKept(s)
    ensures NoSeparator(s)
  {
    forall i | 0 <= i < |s| ensures !IsSeparator(s[i]) {
      assert IsKept(s[i]);
    }
  }

  /** The sanitised stem is made of `[A-Za-z0-9_]` only. */
  lemma SanitisedStemIsWordChars(fileName: string)
    ensures AllWordChars(SanitisedStem(fileName))
  {
    var kept := RemoveSpecial(fileName);
    WhitespacePassIsNoOp(fileName);
    KeptHasNoSeparator(kept);
    FileNameOfPlainName(kept);
    var stem := GetFileNameWithoutExtension(kept);
    assert AllKept(stem) by {
      forall i | 0 <= i < |stem| ensures IsKept(stem[i]) {
        assert stem[i] == kept[i];
      }
    }
    var r := ReplaceDots(stem);
    forall i | 0 <= i < |r| ensures IsWordChar(r[i]) {
      assert IsKept(stem[i]);
    }
  }

  /** If the kept characters still hold a '.', everything from the last one on is dropped and
      the earlier dots become '_'; with no dot left the kept characters are the stem. */
  lemma SanitisedStemDropsLastDot(fileName: string)
    ensures var kept := RemoveSpecial(fileName);
      match LastDot(kept)
      case None => SanitisedStem(fileName) == kept
      case Some(j) => SanitisedStem(fileName) == ReplaceDots(kept[..j])
  {
    var kept := RemoveSpecial(fileName);
    WhitespacePassIsNoOp(fileName);
    KeptHasNoSeparator(kept);
    FileNameOfPlainName(kept);
    if LastDot(kept).None? {
      assert ReplaceDots(kept) == kept;
    }
  }

  /** A stem made only of special characters leaves just the extension. */
  lemma {:induction false} AllSpecialStemLeavesExtension(path: string)
    requires forall i :: 0 <= i < |GetFileNameWithoutExtension(path)| ==> !IsKept(GetFileNameWithoutExtension(path)[i])
    ensures Create(path).safeFileName == GetExtension(path)
  {
    var stem := GetFileNameWithoutExtension(path);
    RemoveSpecialOfSpecials(stem);
    assert RemoveWhitespace("") == "";
    assert GetFileNameWithoutExtension("") == "";
  }

  lemma {:induction false} RemoveSpecialOfSpecials(s: string)
    requires forall i :: 0 <= i < |s| ==> !IsKept(s[i])
    ensures RemoveSpecial(s) == ""
  {
    if |s| > 0 {
      RemoveSpecialOfSpecials(s[1..]);
    }
  }

  lemma {:induction false} RemoveSpecialOfKept(s: string)
    requires AllKept(s)
    ensures RemoveSpecial(s) == s
  {
    if |s| > 0 {
      RemoveSpecialOfKept(s[1..]);
    }
  }

  lemma {:induction false} RemoveSpecialConcat(a: string, b: string)
    ensures RemoveSpecial(a + b) == RemoveSpecial(a) + RemoveSpecial(b)
  {
    if |a| > 0 {
      assert (a + b)[1..] == a[1..] + b;
      RemoveSpecialConcat(a[1..], b);
    } else {
      assert a + b == b;
    }
  }

  lemma KeptConcat(x: string, y: string)
    requires AllKept(x) && AllKept(y)
    ensures AllKept(x + y)
  {
    forall i | 0 <= i < |x + y| ensures IsKept((x + y)[i]) {
      if i < |x| { assert (x + y)[i] == x[i]; } else { assert (x + y)[i] == y[i - |x|]; }
    }
  }

  lemma WordIsKept(a: string)
    requires AllWordChars(a)
    ensures AllKept(a) && NoDot(a)
  {
    forall i | 0 <= i < |a| ensures IsKept(a[i]) && a[i] != '.' {
      assert IsWordChar(a[i]);
    }
  }

  /** In `stem.e` with a dot-free `e`, the last dot is the one after `stem`. */
  lemma LastDotBefore(stem: string, e: string)
    requires NoDot(e)
    ensures LastDot(stem + "." + e) == Some(|stem|)
  {
    var name := stem + "." + e;
    assert name[|stem|] == '.';
    assert name[|stem| + 1..] == e;
    LastDotAt(name, |stem|);
  }

  /** `stem.e` of kept characters, `e` without a dot, has the stem `stem`. */
  lemma StemOfDotted(stem: string, e: string)
    requires AllKept(stem) && AllKept(e) && NoDot(e)
    ensures AllKept(stem + "." + e)
    ensures GetFileNameWithoutExtension(stem + "." + e) == stem
  {
    var name := stem + "." + e;
    DottedKept(stem, e);
    KeptHasNoSeparator(name);
    FileNameOfPlainName(name);
    LastDotBefore(stem, e);
    assert name[..|stem|] == stem;
  }

  lemma {:induction false} StemOfTwoDots(a: string, b: string, c: string)
    requires AllWordChars(a) && AllWordChars(b) && AllWordChars(c)
    ensures AllKept(a + "." + b + "." + c)
    ensures GetFileNameWithoutExtension(a + "." + b + "." + c) == a + "." + b
  {
    WordIsKept(a);
    WordIsKept(b);
    WordIsKept(c);
    assert AllKept(".");
    KeptConcat(a, ".");
    KeptConcat(a + ".", b);
    StemOfDotted(a + "." + b, c);
  }

  lemma SanitisedStemOfKept(s: string)
    requires AllKept(s)
    ensures SanitisedStem(s) == ReplaceDots(GetFileNameWithoutExtension(s))
  {
    RemoveSpecialOfKept(s);
    WhitespacePassIsNoOp(s);
  }

  lemma ReplaceDotsOfOneDot(a: string, b: string)
    requires AllWordChars(a) && AllWordChars(b)
    ensures ReplaceDots(a + "." + b) == a + "_" + b
  {
    var t, u := a + "." + b, a + "_" + b;
    forall i | 0 <= i < |t| ensures ReplaceDots(t)[i] == u[i] {
      if i < |a| {
        assert t[i] == a[i] && u[i] == a[i];
      } else if i > |a| {
        assert t[i] == b[i - |a| - 1] && u[i] == b[i - |a| - 1];
      }
    }
  }

  /** A stem `a.b.c` of word characters becomes `a_b`: the last dot and what follows it go,
      the other dot becomes '_'. */
  lemma {:induction false} TwoDotStem(a: string, b: string, c: string)
    requires AllWordChars(a) && AllWordChars(b) && AllWordChars(c)
    ensures SanitisedStem(a + "." + b + "." + c) == a + "_" + b
  {
    StemOfTwoDots(a, b, c);
    SanitisedStemOfKept(a + "." + b + "." + c);
    ReplaceDotsOfOneDot(a, b);
  }

  lemma NameAfterSlash(dir: string, name: string)
    requires AllKept(name)
    ensures GetFileName(dir + "/" + name) == name
  {
    var path := dir + "/" + name;
    assert path[|dir| + 1..] == name;
    KeptHasNoSeparator(name);
    NameStartAt(path, |dir| + 1);
  }

  /** The saved name is the sanitised stem of the path's stem, then its extension. */
  lemma CreateParts(path: string)
    ensures Create(path).safeFileName == SanitisedStem(GetFileNameWithoutExtension(path)) + GetExtension(path)
  {
  }

  /** Stem and extension depend only on the file name. */
  lemma SameFileName(p: string, q: string)
    requires GetFileName(p) == GetFileName(q)
    ensures GetFileNameWithoutExtension(p) == GetFileNameWithoutExtension(q)
    ensures GetExtension(p) == GetExtension(q)
  {
  }

  /** The extension of a file name whose last dot is not its last character. */
  lemma ExtensionAt(name: string, j: nat)
    requires GetFileName(name) == name && LastDot(name) == Some(j) && j < |name| - 1
    ensures GetExtension(name) == name[j..]
  {
  }

  /** Under a directory, a separator-free file name splits at its last dot. */
  lemma PartsAfterSlash(dir: string, name: string, j: nat)
    requires NoSeparator(name) && LastDot(name) == Some(j) && j < |name| - 1
    ensures GetFileNameWithoutExtension(dir + "/" + name) == name[..j]
    ensures GetExtension(dir + "/" + name) == name[j..]
  {
    var path := dir + "/" + name;
    assert path[|dir| + 1..] == name;
    NameStartAt(path, |dir| + 1);
    FileNameOfPlainName(name);
    SameFileName(path, name);
    ExtensionAt(name, j);
  }

  /** `dir/stem.e`, with a kept-character stem and a word-character extension, splits into
      the stem `stem` and the extension `.e`. */
  lemma DottedParts(dir: string, stem: string, e: string)
    requires AllKept(stem) && AllWordChars(e) && |e| > 0
    ensures GetFileNameWithoutExtension(dir + "/" + (stem + "." + e)) == stem
    ensures GetExtension(dir + "/" + (stem + "." + e)) == "." + e
  {
    var name := stem + "." + e;
    WordIsKept(e);
    DottedKept(stem, e);
    KeptHasNoSeparator(name);
    LastDotBefore(stem, e);
    PartsAfterSlash(dir, name, |stem|);
    DotSplit(stem, e);
  }

  lemma DottedKept(stem: string, e: string)
    requires AllKept(stem) && AllKept(e)
    ensures AllKept(stem + "." + e)
  {
    assert AllKept(".");
    KeptConcat(stem, ".");
    KeptConcat(stem + ".", e);
  }

  lemma DotSplit(stem: string, e: string)
    ensures (stem + "." + e)[..|stem|] == stem && (stem + "." + e)[|stem|..] == "." + e
  {
  }

  /** A file `dir/stem.e`, with a kept-character stem and a word-character extension, is saved
      as the sanitised stem followed by `.e`. */
  lemma DottedFileName(dir: string, stem: string, e: string)
    requires AllKept(stem) && AllWordChars(e) && |e| > 0
    ensures Create(dir + "/" + (stem + "." + e)).safeFileName == SanitisedStem(stem) + "." + e
  {
    DottedParts(dir, stem, e);
    CreateParts(dir + "/" + (stem + "." + e));
  }

  /** `dir/a.b.c.e` with word-character parts is saved as `a_b.e`, e.g. `.../a.b.c.jpg`
      becomes `a_b.jpg`. */
  lemma {:induction false} NestedDotsFileName(dir: string, a: string, b: string, c: string, e: string)
    requires AllWordChars(a) && AllWordChars(b) && AllWordChars(c) && AllWordChars(e) && |e| > 0
    ensures Create(dir + "/" + a + "." + b + "." + c + "." + e).safeFileName == a + "_" + b + "." + e
  {
    var stem := a + "." + b + "." + c;
    var path := dir + "/" + (stem + "." + e);
    StemOfTwoDots(a, b, c);
    DottedFileName(dir, stem, e);
    TwoDotStem(a, b, c);
    PathAssoc(dir, a, b, c, e);
    assert Create(path).safeFileName == a + "_" + b + "." + e;
  }

  lemma PathAssoc(dir: string, a: string, b: string, c: string, e: string)
    ensures dir + "/" + a + "." + b + "." + c + "." + e == dir + "/" + ((a + "." + b + "." + c) + "." + e)
  {
  }
}
