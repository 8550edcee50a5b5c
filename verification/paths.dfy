/** POSIX path pieces as the worker takes them from an object key:
    `os.path.basename`, and `pathlib.Path(...).name`, `.suffix` and `.stem`
    with the rules of Python 3.12. */
module Paths {
  import opened Text

  /** The last index below `n` holding `c`, or -1. */
  function LastBefore(s: string, c: char, n: nat): (i: int)
    requires n <= |s|
    ensures -1 <= i < n
    ensures i >= 0 ==> s[i] == c
    ensures forall k :: i < k < n ==> s[k] != c
    decreases n
  {
    if n == 0 then -1
    else if s[n - 1] == c then n - 1
    else LastBefore(s, c, n - 1)
  }

  /** Python's `str.rfind`: the last index of `c`, or -1. */
  function LastIndexOf(s: string, c: char): (i: int)
    ensures -1 <= i < |s|
    ensures i >= 0 ==> s[i] == c
    ensures forall k :: i < k < |s| ==> s[k] != c
  {
    LastBefore(s, c, |s|)
  }

  predicate NoSlash(s: string)
  {
    forall k :: 0 <= k < |s| ==> s[k] != '/'
  }

  /** `os.path.basename`: everything after the last slash. */
  function Basename(p: string): (r: string)
    ensures NoSlash(r)
    ensures EndsWith(p, r)
    ensures |r| < |p| ==> p[|p| - |r| - 1] == '/'
  {
    var i := LastIndexOf(p, '/');
    var r := p[i + 1..];
    forall k | 0 <= k < |r| ensures r[k] != '/' { assert r[k] == p[i + 1 + k]; }
    r
  }

  /** `PurePosixPath(p).name`: the last component once empty and `.`
      components are dropped, or "" when none is left. */
  function PathName(p: string): (r: string)
    ensures NoSlash(r)
    ensures r != "."
    ensures Basename(p) != "" && Basename(p) != "." ==> r == Basename(p)
    decreases |p|
  {
    var i := LastIndexOf(p, '/');
    var last := p[i + 1..];
    assert NoSlash(last) by { assert last == Basename(p); }
    if last != "" && last != "." then last
    else if i < 0 then ""
    else PathName(p[..i])
  }

  /** A name without a slash is its own `.name`, except `.`. */
  lemma PathNameOfPlainName(f: string)
    requires NoSlash(f)
    ensures PathName(f) == (if f == "." then "" else f)
  {
  }

  lemma NoSlashParts(a: string, b: string)
    ensures NoSlash(a + b) <==> NoSlash(a) && NoSlash(b)
  {
    if NoSlash(a + b) {
      assert forall k :: 0 <= k < |a| ==> a[k] == (a + b)[k];
      assert forall k :: 0 <= k < |b| ==> b[k] == (a + b)[|a| + k];
    }
  }

  /** pathlib's test for a suffix: a dot that is neither the first nor the
      last character of the name. */
  predicate HasSuffix(name: string)
  {
    0 < LastIndexOf(name, '.') < |name| - 1
  }

  /** `.suffix`: from the last dot on, when `HasSuffix`; otherwise "". */
  function Suffix(name: string): (r: string)
    ensures r == [] <==> !HasSuffix(name)
    ensures r != [] ==> r[0] == '.' && 2 <= |r| < |name| && EndsWith(name, r)
    ensures forall k :: 1 <= k < |r| ==> r[k] != '.'
  {
    if HasSuffix(name) then name[LastIndexOf(name, '.')..] else ""
  }

  /** `.stem`: the name with its suffix cut off. */
  function Stem(name: string): (r: string)
    ensures r + Suffix(name) == name
    ensures r == "" <==> name == ""
  {
    if HasSuffix(name) then name[..LastIndexOf(name, '.')] else name
  }

  /** Stem and suffix of a name without a slash have none either. */
  lemma StemSuffixNoSlash(name: string)
    requires NoSlash(name)
    ensures NoSlash(Stem(name)) && NoSlash(Suffix(name))
  {
    NoSlashParts(Stem(name), Suffix(name));
  }

  /** A path ending in `/` and a name without a slash has that name as its
      last component. */
  lemma BasenameAfterSlash(u: string, f: string)
    requires NoSlash(f) && EndsWith(u, "/" + f)
    ensures Basename(u) == f
  {
    var i := LastIndexOf(u, '/');
    assert u[|u| - |f| - 1] == '/';
    assert forall k :: |u| - |f| <= k < |u| ==> u[k] == f[k - (|u| - |f|)];
    assert i == |u| - |f| - 1;
  }
}
