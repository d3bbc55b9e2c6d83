/** The two pieces of Python's standard library the upload handler relies on
    for its file name: `str.lower` / `str.endswith`, and `posixpath.join`. */
module PyText {

  /** `str.lower()` on one character; only ASCII letters are case-mapped. */
  function LowerChar(c: char): char
  {
    if 'A' <= c <= 'Z' then (c as int + 32) as char else c
  }

  /** `str.lower()`, character by character: the result has no upper-case
      ASCII letter left, and every other character stays where it was. */
  function Lower(s: string): (r: string)
    ensures |r| == |s|
    ensures forall i :: 0 <= i < |r| ==> !('A' <= r[i] <= 'Z')
    ensures forall i :: 0 <= i < |s| && !('A' <= s[i] <= 'Z') ==> r[i] == s[i]
  {
    seq(|s|, i requires 0 <= i < |s| => LowerChar(s[i]))
  }

  /** `s.endswith(suffix)`. */
  predicate EndsWith(s: string, suffix: string)
  {
    |suffix| <= |s| && s[|s| - |suffix|..] == suffix
  }

  /** `posixpath.join(a, b)` for two components: an absolute `b` replaces
      `a`; otherwise `b` is appended, with a separator unless `a` is empty or
      already ends in one. */
  function Join(a: string, b: string): string
  {
    if |b| > 0 && b[0] == '/' then b
    else if a == [] || a[|a| - 1] == '/' then a + b
    else a + "/" + b
  }

  /** A relative name joined onto a directory that does not end in a
      separator lands inside that directory: the result is the directory, one
      separator, and the name, so the name is recoverable from the path. */
  lemma JoinRelative(dir: string, name: string)
    requires dir != [] && dir[|dir| - 1] != '/'
    requires name == [] || name[0] != '/'
    ensures Join(dir, name) == dir + "/" + name
    ensures Join(dir, name)[|dir| + 1..] == name
  {
  }

  /** An absolute name escapes the directory altogether. */
  lemma JoinAbsolute(dir: string, name: string)
    requires |name| > 0 && name[0] == '/'
    ensures Join(dir, name) == name
  {
  }
}
