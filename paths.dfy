/** The parts of `pathlib.PurePosixPath` the program uses, on path strings in
    pathlib's normal form (no trailing, doubled or `.` components), following
    Python 3.12: `name`, `suffix`, `stem`, `with_suffix`, the `/` operator and
    `parts`. */
module Paths {
  import opened Base
  import opened Text

  /** The directory part, up to and including the last separator. */
  function Dir(p: string): string
  {
    p[..LastIndexOf(p, '/') + 1]
  }

  /** `PurePath.name`: the final component. */
  function Name(p: string): (n: string)
    ensures '/' !in n
  {
    p[LastIndexOf(p, '/') + 1..]
  }

  /** A path is its directory part followed by its name. */
  lemma DirName(p: string)
    ensures p == Dir(p) + Name(p)
  {
    var i := LastIndexOf(p, '/');
    assert Dir(p) == p[..i + 1];
    assert Name(p) == p[i + 1..];
  }

  /** A directory part (empty, or ending in a separator) followed by a
      separator-free name splits back into those two. */
  lemma DirNameOfAppend(d: string, b: string)
    requires d == [] || d[|d| - 1] == '/'
    requires '/' !in b
    ensures Dir(d + b) == d && Name(d + b) == b
  {
    LastIndexOfAppend(d, b, '/');
    assert (d + b)[..|d|] == d;
  }

  lemma DirEndsInSeparator(p: string)
    ensures Dir(p) == [] || Dir(p)[|Dir(p)| - 1] == '/'
  {
  }

  /** `PurePath.suffix`: from the last dot of the name, provided that dot is
      neither the first nor the last character of the name. */
  function Suffix(p: string): (r: string)
    ensures r == [] || (|r| >= 2 && r[0] == '.')
    ensures r == [] || '.' !in r[1..]
    ensures |r| <= |Name(p)| && Name(p)[|Name(p)| - |r|..] == r
  {
    var n := Name(p);
    var i := LastIndexOf(n, '.');
    if 0 < i < |n| - 1 then n[i..] else ""
  }

  /** `PurePath.stem`: the name without its suffix. */
  function Stem(p: string): (s: string)
    ensures Name(p) == s + Suffix(p)
    ensures Name(p) != [] ==> s != []
  {
    var n := Name(p);
    var r := Suffix(p);
    assert n == n[..|n| - |r|] + r;
    assert n != [] ==> |r| < |n| by { SuffixShorter(p); }
    n[..|n| - |r|]
  }

  /** The suffix never takes up the whole of a non-empty name. */
  lemma SuffixShorter(p: string)
    ensures Name(p) != [] ==> |Suffix(p)| < |Name(p)|
  {
  }

  /** `PurePath.with_suffix`: `None` where pathlib raises ValueError (an
      invalid suffix, or a path with an empty name). */
  function WithSuffix(p: string, suffix: string): (r: Option<string>)
    ensures r.Some? <==> ValidSuffix(suffix) && Name(p) != []
    ensures r.Some? ==> r.value == Dir(p) + Stem(p) + suffix
  {
    if !ValidSuffix(suffix) || Name(p) == [] then None
    else Some(Dir(p) + Stem(p) + suffix)
  }

  predicate ValidSuffix(suffix: string)
  {
    '/' !in suffix && (suffix == [] || suffix[0] == '.') && suffix != "."
  }

  /** Replacing the suffix by a plain one (a dot and at least one more
      character, no further dot) keeps the directory and the stem and makes it
      the new suffix. */
  lemma WithSuffixSetsSuffix(p: string, suffix: string)
    requires Name(p) != []
    requires |suffix| >= 2 && suffix[0] == '.' && '.' !in suffix[1..] && '/' !in suffix
    ensures WithSuffix(p, suffix).Some?
    ensures var q := WithSuffix(p, suffix).value;
      Dir(q) == Dir(p) && Name(q) == Stem(p) + suffix && Suffix(q) == suffix && Stem(q) == Stem(p)
  {
    assert '/' !in Stem(p) by { NotInConcat(Stem(p), Suffix(p), '/'); }
    DirEndsInSeparator(p);
    SplitAgain(Dir(p), Stem(p), suffix);
  }

  /** A directory part, a non-empty separator-free stem and a plain suffix
      split back into those three. */
  lemma SplitAgain(d: string, stem: string, suffix: string)
    requires d == [] || d[|d| - 1] == '/'
    requires stem != [] && '/' !in stem
    requires |suffix| >= 2 && suffix[0] == '.' && '.' !in suffix[1..] && '/' !in suffix
    ensures var q := d + stem + suffix;
      Dir(q) == d && Name(q) == stem + suffix && Suffix(q) == suffix && Stem(q) == stem
  {
    var n := stem + suffix;
    assert '/' !in n by { NotInConcat(stem, suffix, '/'); }
    assert d + stem + suffix == d + n;
    DirNameOfAppend(d, n);
    SuffixOfName(d + n, stem, suffix);
  }

  lemma StemSuffixSeparatorFree(p: string, suffix: string)
    requires '/' !in suffix
    ensures '/' !in Stem(p) + suffix
  {
    NotInConcat(Stem(p), Suffix(p), '/');
    NotInConcat(Stem(p), suffix, '/');
  }

  lemma DirNameOfDirAppend(p: string, n: string)
    requires '/' !in n
    ensures Dir(Dir(p) + n) == Dir(p) && Name(Dir(p) + n) == n
  {
    DirEndsInSeparator(p);
    DirNameOfAppend(Dir(p), n);
  }

  /** A name made of a non-empty stem and a plain suffix has that suffix. */
  lemma SuffixOfName(q: string, stem: string, suffix: string)
    requires Name(q) == stem + suffix && stem != []
    requires |suffix| >= 2 && suffix[0] == '.' && '.' !in suffix[1..]
    ensures Suffix(q) == suffix && Stem(q) == stem
  {
    var n := stem + suffix;
    assert n == (stem + ".") + suffix[1..];
    LastIndexOfAppend(stem + ".", suffix[1..], '.');
    assert LastIndexOf(n, '.') == |stem|;
    assert n[|stem|..] == suffix;
  }

  lemma NotInConcat(a: string, b: string, c: char)
    ensures c !in a + b <==> c !in a && c !in b
  {
    if c in a + b {
      var k :| 0 <= k < |a + b| && (a + b)[k] == c;
      if k >= |a| { assert b[k - |a|] == c; }
    }
    if c in a {
      var k :| 0 <= k < |a| && a[k] == c;
      assert (a + b)[k] == c;
    }
    if c in b {
      var k :| 0 <= k < |b| && b[k] == c;
      assert (a + b)[|a| + k] == c;
    }
  }

  /** `LastIndexOf` on a concatenation whose right part lacks the character. */
  lemma LastIndexOfAppend(a: string, b: string, c: char)
    requires c !in b
    ensures LastIndexOf(a + b, c) == LastIndexOf(a, c)
    decreases |b|
  {
    if b != [] {
      assert (a + b)[..|a + b| - 1] == a + b[..|b| - 1];
      LastIndexOfAppend(a, b[..|b| - 1], c);
    } else {
      assert a + b == a;
    }
  }

  /** The `/` operator: `Path(dir) / name`. */
  function JoinPath(dir: string, name: string): string
  {
    if dir == "" || dir == "." then name
    else if dir[|dir| - 1] == '/' then dir + name
    else dir + "/" + name
  }

  /** The joined path ends with the name it was given. */
  lemma JoinPathEndsWithName(dir: string, name: string)
    ensures |JoinPath(dir, name)| >= |name|
    ensures JoinPath(dir, name)[|JoinPath(dir, name)| - |name|..] == name
  {
  }

  /** Joining one directory with two names gives one path only for one
      name. */
  lemma JoinPathInjective(dir: string, a: string, b: string)
    requires JoinPath(dir, a) == JoinPath(dir, b)
    ensures a == b
  {
    var p := JoinPath(dir, a);
    var d := |p| - |a|;
    assert |a| == |b|;
    assert a == p[d..] && b == p[d..];
  }

  /** `PurePath.parts`; an absolute path starts with the part "/". */
  function Parts(p: string): seq<string>
  {
    if p == "" || p == "." then []
    else if p == "/" then ["/"]
    else if p[0] == '/' then ["/"] + Split(p[1..], '/')
    else Split(p, '/')
  }

  /** The string of a path given by its parts (inverse of `Parts` on normal
      forms). */
  function FromParts(parts: seq<string>): string
  {
    if parts == [] then "."
    else if parts[0] == "/" then "/" + Join(parts[1..], "/")
    else Join(parts, "/")
  }
}
