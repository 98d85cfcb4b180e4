// POSIX-style path helpers with Node's `path` meaning for normalised absolute
// paths that use '/' as the separator.
module Paths {
  import opened Strings

  const Sep: char := '/'

  /** Index of the last `c` in `s`, or -1. */
  function LastIndexOf(s: string, c: char): (k: int)
    ensures -1 <= k < |s|
    ensures k >= 0 ==> s[k] == c && forall j :: k < j < |s| ==> s[j] != c
    ensures k == -1 ==> forall j :: 0 <= j < |s| ==> s[j] != c
  {
    if s == [] then -1
    else if s[|s| - 1] == c then |s| - 1
    else LastIndexOf(s[..|s| - 1], c)
  }

  lemma LastIndexOfIs(s: string, c: char, k: int)
    requires 0 <= k < |s| && s[k] == c
    requires forall j :: k < j < |s| ==> s[j] != c
    ensures LastIndexOf(s, c) == k
  {
  }

  predicate NoSep(s: string)
  {
    forall i :: 0 <= i < |s| ==> s[i] != Sep
  }

  /** `path.basename(p)`: the last component. */
  function BaseName(p: string): (r: string)
    ensures NoSep(r)
  {
    var k := LastIndexOf(p, Sep);
    p[k + 1..]
  }

  /** `path.dirname(p)`: everything before the last separator. */
  function Dirname(p: string): string
  {
    var k := LastIndexOf(p, Sep);
    if k == -1 then "." else if k == 0 then [Sep] else p[..k]
  }

  /** `path.extname(p)`: from the last '.' of the last component, unless that
      dot is the component's first character. */
  function Extname(p: string): (r: string)
    ensures r == [] || (r[0] == '.' && NoSep(r) && forall i :: 0 < i < |r| ==> r[i] != '.')
  {
    var b := BaseName(p);
    var k := LastIndexOf(b, '.');
    if k <= 0 then []
    else
      assert forall i :: 0 <= i < |b| - k ==> b[k..][i] == b[k + i];
      b[k..]
  }

  /** `path.basename(p, ext)`: the last component with `ext` removed from its end. */
  function BasenameWithout(p: string, ext: string): (r: string)
    ensures NoSep(r)
  {
    var b := BaseName(p);
    if ext != [] && b == ext then []
    else if ext != [] && EndsWith(b, ext) then b[..|b| - |ext|]
    else b
  }

  /** The last path component with `ext` removed whatever its case. */
  function StripExtensionAnyCase(filename: string, ext: string): (r: string)
    ensures NoSep(r)
  {
    var b := BaseName(filename);
    if ext != [] && ToLower(b) == ToLower(ext) then []
    else if ext != [] && EndsWith(ToLower(b), ToLower(ext)) then b[..|b| - |ext|]
    else b
  }

  /** A name without separators is its own last component. */
  lemma BaseNameOfName(b: string)
    requires NoSep(b)
    ensures BaseName(b) == b
  {
    assert LastIndexOf(b, Sep) == -1;
  }

  /** The case where `StripExtensionAnyCase` cuts the extension off. */
  lemma StripCuts(filename: string, ext: string)
    requires ext != [] && ToLower(BaseName(filename)) != ToLower(ext)
    requires EndsWith(ToLower(BaseName(filename)), ToLower(ext))
    ensures StripExtensionAnyCase(filename, ext) == BaseName(filename)[..|BaseName(filename)| - |ext|]
  {
  }

  /** Lower-casing commutes with taking a suffix. */
  lemma LowerSuffix(stem: string, e: string)
    ensures ToLower(stem + e)[|stem|..] == ToLower(e)
  {
    var lb := ToLower(stem + e);
    forall i | 0 <= i < |e|
      ensures lb[|stem| + i] == ToLower(e)[i]
    {
      assert (stem + e)[|stem| + i] == e[i];
    }
  }

  /** A name's extension is removed whatever the case of either side. */
  lemma StripDropsAnyCase(stem: string, e: string, ext: string)
    requires NoSep(stem + e) && e != [] && stem != [] && ToLower(ext) == ToLower(e)
    ensures StripExtensionAnyCase(stem + e, ext) == stem
  {
    var b := stem + e;
    assert BaseName(b) == b by { BaseNameOfName(b); }
    assert |ext| == |e| by { assert |ToLower(ext)| == |ToLower(e)|; }
    assert ToLower(b) != ToLower(ext) by { assert |ToLower(b)| == |b|; }
    assert EndsWith(ToLower(b), ToLower(ext)) by { LowerSuffix(stem, e); }
    assert b[..|b| - |ext|] == stem;
    StripCuts(b, ext);
  }

  /** `path.join(a, b)` for a normalised directory `a` and a name `b`. */
  function Join(a: string, b: string): string
  {
    if b == [] then a
    else if a == [] then b
    else if a[|a| - 1] == Sep then a + b
    else a + [Sep] + b
  }

  /** A directory as `Dirname` returns it and `Join` extends it without doubling
      separators: the root, or a non-empty path without a trailing separator. */
  predicate PlainDir(d: string)
  {
    d == [Sep] || (d != [] && d[|d| - 1] != Sep)
  }

  lemma DirnameOfJoin(d: string, name: string)
    requires PlainDir(d) && name != [] && NoSep(name)
    ensures Dirname(Join(d, name)) == d
  {
    var p := Join(d, name);
    if d == [Sep] {
      assert p == [Sep] + name;
      LastIndexOfIs(p, Sep, 0);
    } else {
      assert p == d + [Sep] + name;
      LastIndexOfIs(p, Sep, |d|);
      assert p[..|d|] == d;
    }
  }

  lemma BaseNameOfJoin(d: string, name: string)
    requires d != [] && name != [] && NoSep(name)
    ensures BaseName(Join(d, name)) == name
  {
    var p := Join(d, name);
    if d[|d| - 1] == Sep {
      assert p == d + name;
      LastIndexOfIs(p, Sep, |d| - 1);
      assert p[|d|..] == name;
    } else {
      assert p == d + [Sep] + name;
      LastIndexOfIs(p, Sep, |d|);
      assert p[|d| + 1..] == name;
    }
  }

  lemma JoinInjective(d: string, a: string, b: string)
    requires d != [] && a != [] && b != []
    requires Join(d, a) == Join(d, b)
    ensures a == b
  {
    if d[|d| - 1] == Sep {
      ConcatCancel(d, a, b, []);
      assert d + a + [] == Join(d, a);
      assert d + b + [] == Join(d, b);
    } else {
      assert d + [Sep] + a + [] == Join(d, a);
      assert d + [Sep] + b + [] == Join(d, b);
      ConcatCancel(d + [Sep], a, b, []);
    }
  }
}
