/**
 * The `File` facade over an in-memory file tree: a map from path to
 * contents. Paths are looked up after collapsing repeated `/`, as the
 * operating system does, so `views//posts` and `views/posts` name the
 * same directory. A directory exists when some file lies below it.
 */
module FileSystem {
  import opened PhpStrings

  /** The path with every run of `/` collapsed to one. */
  function Normalize(p: string): string
    decreases |p|
  {
    if |p| == 0 then p
    else if |p| >= 2 && p[0] == '/' && p[1] == '/' then Normalize(p[1..])
    else [p[0]] + Normalize(p[1..])
  }

  /** Collapsing separators keeps the first character. */
  lemma {:induction false} NormalizeHead(p: string)
    ensures |Normalize(p)| == 0 <==> |p| == 0
    ensures |p| > 0 ==> Normalize(p)[0] == p[0]
    decreases |p|
  {
    if |p| >= 2 && p[0] == '/' && p[1] == '/' {
      NormalizeHead(p[1..]);
    }
  }

  /** Strings with the same normal form keep it under any common prefix. */
  lemma {:induction false} NormalizeCongruence(x: string, s1: string, s2: string)
    requires Normalize(s1) == Normalize(s2)
    ensures Normalize(x + s1) == Normalize(x + s2)
    decreases |x|
  {
    if |x| > 0 {
      NormalizeCongruence(x[1..], s1, s2);
      assert (x + s1)[1..] == x[1..] + s1;
      assert (x + s2)[1..] == x[1..] + s2;
      if |x| == 1 {
        NormalizeHead(s1);
        NormalizeHead(s2);
        assert x + s1 == [x[0]] + s1;
        assert x + s2 == [x[0]] + s2;
      } else {
        assert (x + s1)[..2] == x[..2] == (x + s2)[..2];
      }
    } else {
      assert x + s1 == s1 && x + s2 == s2;
    }
  }

  /** A doubled separator names the same path as a single one. */
  lemma DoubleSlash(x: string, y: string)
    ensures Normalize(x + "//" + y) == Normalize(x + "/" + y)
  {
    assert ("//" + y)[1..] == "/" + y;
    NormalizeCongruence(x, "//" + y, "/" + y);
    assert x + "//" + y == x + ("//" + y);
    assert x + "/" + y == x + ("/" + y);
  }

  /** A path without repeated separators is already normal. */
  lemma {:induction false} NormalizeClean(p: string)
    requires forall i :: 0 <= i < |p| - 1 ==> !(p[i] == '/' && p[i + 1] == '/')
    ensures Normalize(p) == p
    decreases |p|
  {
    if |p| > 0 {
      NormalizeClean(p[1..]);
      assert p == [p[0]] + p[1..];
    }
  }

  /**
   * Two paths normalize separately unless the first ends and the second
   * begins with a separator, which would run together.
   */
  lemma {:induction false} NormalizeAppend(a: string, b: string)
    requires !(|a| > 0 && a[|a| - 1] == '/' && |b| > 0 && b[0] == '/')
    ensures Normalize(a + b) == Normalize(a) + Normalize(b)
    decreases |a|
  {
    if |a| > 0 {
      assert (a + b)[1..] == a[1..] + b;
      if |a| >= 2 {
        NormalizeAppend(a[1..], b);
      } else {
        assert a[1..] + b == b;
      }
    } else {
      assert a + b == b;
    }
  }

  /** A name without separators is its own normal form. */
  lemma {:induction false} NormalizeNoSlash(s: string)
    requires '/' !in s
    ensures Normalize(s) == s
    decreases |s|
  {
    if |s| > 0 {
      assert s[0] != '/' && '/' !in s[1..];
      NormalizeNoSlash(s[1..]);
      assert s == [s[0]] + s[1..];
    }
  }

  /** A separator followed by a name that does not begin with one stays in front of it. */
  lemma SlashBefore(rest: string)
    requires |rest| > 0 && rest[0] != '/'
    ensures Normalize("/" + rest) == "/" + Normalize(rest)
  {
    assert ("/" + rest)[1..] == rest;
  }

  /** A directory name without separators, a separator and a name that does not begin with one. */
  lemma NormalDir(dir: string, rest: string)
    requires '/' !in dir && |rest| > 0 && rest[0] != '/'
    ensures Normalize(dir + "/" + rest) == dir + "/" + Normalize(rest)
  {
    NormalizeNoSlash(dir);
    SlashBefore(rest);
    NormalizeAppend(dir, "/" + rest);
    assert dir + "/" + rest == dir + ("/" + rest);
  }

  /** The files left after removing the directory `prefix` (with its trailing `/`). */
  function Prune(files: map<string, string>, prefix: string): (r: map<string, string>)
    ensures forall k :: k in r <==> k in files && !StartsWith(k, prefix)
    ensures forall k :: k in r ==> r[k] == files[k]
  {
    map k | k in files && !StartsWith(k, prefix) :: files[k]
  }

  /** Some file is stored below `p`, which is then a directory. */
  predicate DirIn(files: map<string, string>, p: string)
  {
    exists k :: k in files && StartsWith(k, Normalize(p) + "/")
  }

  /** `p` names a stored file or a directory: which paths exist depends on the stored paths alone. */
  predicate ExistsIn(files: map<string, string>, p: string)
  {
    Normalize(p) in files || DirIn(files, p)
  }

  class Disk {
    var files: map<string, string>

    constructor (initial: map<string, string>)
      ensures files == initial
    {
      files := initial;
    }

    predicate IsFile(p: string)
      reads this
    {
      Normalize(p) in files
    }

    predicate IsDirectory(p: string)
      reads this
    {
      DirIn(files, p)
    }

    /** `File::exists`: a file or a directory. */
    predicate Exists(p: string)
      reads this
    {
      ExistsIn(files, p)
    }

    /** `File::get` of an existing file. */
    function Get(p: string): string
      reads this
      requires IsFile(p)
    {
      files[Normalize(p)]
    }

    /** `File::put`. */
    method Put(p: string, content: string)
      modifies this
      ensures files == old(files)[Normalize(p) := content]
    {
      files := files[Normalize(p) := content];
    }

    /** `File::delete`. */
    method Delete(p: string)
      modifies this
      ensures files == old(files) - {Normalize(p)}
    {
      files := files - {Normalize(p)};
    }

    /** `File::deleteDirectory`: every file below the directory goes. */
    method DeleteDirectory(p: string)
      modifies this
      ensures files == Prune(old(files), Normalize(p) + "/")
    {
      files := Prune(files, Normalize(p) + "/");
    }
  }
}
