/**
 * Text and path helpers the scanner relies on: ASCII case mapping
 * (`str.lower`, `str.upper`), substring search (`in` on strings) and the
 * parts of a POSIX path that `pathlib` exposes (`name`, `stem`, `suffix`,
 * `relative_to`).
 */
module Strings {
  import opened Optional

  function LowerChar(c: char): char {
    if 'A' <= c <= 'Z' then (c as int + 32) as char else c
  }

  function UpperChar(c: char): char {
    if 'a' <= c <= 'z' then (c as int - 32) as char else c
  }

  /** Lower-cases the ASCII letters of `s`, leaving every other character as it is. */
  function Lower(s: string): string {
    seq(|s|, i requires 0 <= i < |s| => LowerChar(s[i]))
  }

  /** Upper-cases the ASCII letters of `s`, leaving every other character as it is. */
  function Upper(s: string): string {
    seq(|s|, i requires 0 <= i < |s| => UpperChar(s[i]))
  }

  /** Python's `sub in s` on two strings. */
  predicate Contains(s: string, sub: string) {
    exists i | 0 <= i <= |s| - |sub| :: sub <= s[i..]
  }

  /** The index of the last occurrence of `c` in `s`, or -1 (Python's `str.rfind`). */
  function LastIndexOf(s: string, c: char): (r: int)
    ensures -1 <= r < |s|
    ensures 0 <= r ==> s[r] == c
    ensures forall j :: r < j < |s| ==> s[j] != c
  {
    if |s| == 0 then -1
    else if s[|s| - 1] == c then |s| - 1
    else LastIndexOf(s[..|s| - 1], c)
  }

  /** The final component of a normalised path (`PurePath.name`). */
  function Name(path: string): (r: string)
    ensures |r| <= |path| && path[|path| - |r|..] == r
    ensures forall j :: 0 <= j < |r| ==> r[j] != '/'
    ensures |r| < |path| ==> path[|path| - |r| - 1] == '/'
  {
    path[LastIndexOf(path, '/') + 1..]
  }

  /**
   * `PurePath.suffix`: the name from its last dot on, provided that dot
   * neither starts nor ends the name; otherwise empty.
   */
  function Suffix(path: string): string {
    var name := Name(path);
    var i := LastIndexOf(name, '.');
    if 0 < i < |name| - 1 then name[i..] else ""
  }

  /** `PurePath.stem`: the name without its suffix. */
  function Stem(path: string): string {
    var name := Name(path);
    var i := LastIndexOf(name, '.');
    if 0 < i < |name| - 1 then name[..i] else name
  }

  /**
   * `i` is the dot `PurePath.suffix` starts at: the last dot of `name`,
   * provided it is neither the first nor the last character.
   */
  predicate SuffixDot(name: string, i: int) {
    0 < i < |name| - 1 && name[i] == '.' && forall j :: i < j < |name| ==> name[j] != '.'
  }

  /**
   * Stem and suffix split the name at its suffix dot when it has one; the
   * suffix is empty exactly when it has none, and then the stem is the
   * whole name. A suffix is a dot followed by at least one character that
   * is neither a dot nor a separator.
   */
  lemma StemAndSuffix(path: string)
    ensures forall i :: SuffixDot(Name(path), i) ==> Suffix(path) == Name(path)[i..] && Stem(path) == Name(path)[..i]
    ensures Suffix(path) == "" <==> forall i :: !SuffixDot(Name(path), i)
    ensures Suffix(path) == "" ==> Stem(path) == Name(path)
    ensures Stem(path) + Suffix(path) == Name(path)
    ensures Suffix(path) == "" || (|Suffix(path)| >= 2 && Suffix(path)[0] == '.')
    ensures forall j :: 1 <= j < |Suffix(path)| ==> Suffix(path)[j] != '.' && Suffix(path)[j] != '/'
    ensures Suffix(path) != "" ==> |Stem(path)| > 0
  {
    SuffixAtDot(path);
    SuffixSplitsName(path);
    SuffixCharacters(path);
  }

  /** Where the suffix starts, in terms of the suffix dot. */
  lemma SuffixAtDot(path: string)
    ensures forall i :: SuffixDot(Name(path), i) ==> Suffix(path) == Name(path)[i..] && Stem(path) == Name(path)[..i]
    ensures Suffix(path) == "" <==> forall i :: !SuffixDot(Name(path), i)
    ensures Suffix(path) == "" ==> Stem(path) == Name(path)
  {
    var name := Name(path);
    var k := LastIndexOf(name, '.');
    assert Suffix(path) == (if 0 < k < |name| - 1 then name[k..] else "");
    assert Stem(path) == (if 0 < k < |name| - 1 then name[..k] else name);
    forall i | SuffixDot(name, i)
      ensures i == k
    {
      LastIndexAt(name, '.', i);
    }
    if 0 < k < |name| - 1 {
      assert SuffixDot(name, k);
    }
  }

  /** Stem and suffix put back together give the name. */
  lemma SuffixSplitsName(path: string)
    ensures Stem(path) + Suffix(path) == Name(path)
    ensures Suffix(path) == "" || (|Suffix(path)| >= 2 && Suffix(path)[0] == '.')
    ensures Suffix(path) != "" ==> |Stem(path)| > 0
  {
  }

  /** After its dot, a suffix holds neither a dot nor a separator. */
  lemma SuffixCharacters(path: string)
    ensures forall j :: 1 <= j < |Suffix(path)| ==> Suffix(path)[j] != '.' && Suffix(path)[j] != '/'
  {
  }

  /** The base `relative_to` treats as the current directory. */
  predicate IsCurrentDir(base: string) {
    base == "." || base == ""
  }

  /**
   * `PurePath.relative_to(base)` on normalised paths: "." for the base
   * itself; below the current directory, every relative path is its own
   * remainder; below any other base, the remainder after the base and a
   * separator; failure (`ValueError`) for any other path.
   */
  function RelativeTo(path: string, base: string): (r: Option<string>)
    ensures r.Some? && r.value != "." ==> Join(base, r.value) == path
    ensures IsCurrentDir(base) ==> (r.None? <==> |path| > 0 && path[0] == '/')
  {
    if path == base then Some(".")
    else if IsCurrentDir(base) then
      if IsCurrentDir(path) then Some(".")
      else if path[0] == '/' then None
      else Some(path)
    else
      var prefix := if base[|base| - 1] == '/' then base else base + "/";
      if prefix <= path then Some(path[|prefix|..]) else None
  }

  /** `base / rel` for a relative `rel`: the current directory adds nothing, any other base a separator. */
  function Join(base: string, rel: string): string {
    if IsCurrentDir(base) then rel
    else if base[|base| - 1] == '/' then base + rel
    else base + "/" + rel
  }

  /** A relative path below `base` is found again by `relative_to`. */
  lemma RelativeToJoin(base: string, rel: string)
    requires rel != "" && rel != "." && rel[0] != '/'
    ensures RelativeTo(Join(base, rel), base) == Some(rel)
  {
    var path := Join(base, rel);
    if !IsCurrentDir(base) {
      var prefix := if base[|base| - 1] == '/' then base else base + "/";
      assert path == prefix + rel;
      assert prefix <= path && path[|prefix|..] == rel;
    }
  }

  /** `s` has no upper-case ASCII letter. */
  predicate HasNoUpper(s: string) {
    forall i :: 0 <= i < |s| ==> !('A' <= s[i] <= 'Z')
  }

  /** A string with no upper-case ASCII letter is its own lower case. */
  lemma LowerOfLowerCase(s: string)
    requires HasNoUpper(s)
    ensures Lower(s) == s
  {
  }

  /** `c` does not occur in `s`. */
  predicate Lacks(s: string, c: char) {
    forall i :: 0 <= i < |s| ==> s[i] != c
  }

  /** A string that lacks one of the characters of `sub` does not contain `sub`. */
  lemma MissingCharNotContained(s: string, sub: string, k: nat)
    requires k < |sub| && Lacks(s, sub[k])
    ensures !Contains(s, sub)
  {
    forall i | 0 <= i <= |s| - |sub|
      ensures !(sub <= s[i..])
    {
      assert s[i..][k] == s[i + k];
    }
  }

  /** The last occurrence is the one with none after it. */
  lemma LastIndexAt(s: string, c: char, k: nat)
    requires k < |s| && s[k] == c && forall j :: k < j < |s| ==> s[j] != c
    ensures LastIndexOf(s, c) == k
  {
  }
}
