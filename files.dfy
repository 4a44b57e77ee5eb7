/** The file system as the program uses it: the text of each file by path,
    the set of directories, and the paths where opening a file for writing
    fails (with the error message it fails with). Directory creation is not
    modelled; `mkdir` calls leave the store as it is. */
module Files {
  import opened Base

  /** The error opening path p for writing raises, given the directories
      and the paths that refuse writes: none exactly when p is neither. */
  function OpenError(dirs: set<string>, unwritable: map<string, string>, p: string): (e: Option<string>)
    ensures e.None? <==> p !in dirs && p !in unwritable
  {
    if p in dirs then Some("[Errno 21] Is a directory: '" + p + "'")
    else if p in unwritable then Some(unwritable[p])
    else None
  }

  /** Whether p is root itself or a path inside the directory root. */
  predicate Within(p: string, root: string)
  {
    p == root || (|root| < |p| && p[..|root|] == root && p[|root|] == '/')
  }

  /** No path is both a file and a directory, and the directory part before
      every '/' of a stored path (other than a leading one) is a directory. */
  predicate Tree(files: map<string, string>, dirs: set<string>)
  {
    (forall p :: p in files ==> p !in dirs)
    && (forall p :: p in files.Keys + dirs ==> forall i :: 0 < i < |p| && p[i] == '/' ==> p[..i] in dirs)
  }

  /** Nothing is stored at p or inside it. */
  predicate Vacant(paths: set<string>, p: string)
  {
    forall k :: k in paths ==> !Within(k, p)
  }

  /** Where path p ends up when src is renamed to dst. */
  function Moved(p: string, src: string, dst: string): (q: string)
    ensures Within(p, src) ==> Within(q, dst) && q[|dst|..] == p[|src|..]
    ensures !Within(p, src) ==> q == p
  {
    if Within(p, src) then dst + p[|src|..] else p
  }

  /** In a tree, a path that is not stored has nothing stored inside it. */
  lemma VacantTarget(files: map<string, string>, dirs: set<string>, dst: string)
    requires Tree(files, dirs) && dst !in files && dst !in dirs && dst != []
    ensures Vacant(files.Keys + dirs, dst)
  {
    forall k | k in files.Keys + dirs
      ensures !Within(k, dst)
    {
      if Within(k, dst) && k != dst {
        assert false;
      }
    }
  }

  /** Renaming src to a vacant dst sends distinct paths to distinct paths. */
  lemma MovedInjective(a: string, b: string, src: string, dst: string)
    requires !Within(a, dst) && !Within(b, dst) && Moved(a, src, dst) == Moved(b, src, dst)
    ensures a == b
  {
    if Within(a, src) && Within(b, src) {
      assert a == a[..|src|] + a[|src|..] && b == b[..|src|] + b[|src|..];
      assert a[|src|..] == Moved(a, src, dst)[|dst|..] == b[|src|..];
    }
  }

  /** The file texts after renaming src to a vacant dst. */
  function MoveFiles(files: map<string, string>, src: string, dst: string): (r: map<string, string>)
    requires Vacant(files.Keys, dst)
    ensures forall k :: k in files ==> Moved(k, src, dst) in r && r[Moved(k, src, dst)] == files[k]
    ensures forall q :: q in r ==> exists k :: k in files && q == Moved(k, src, dst)
  {
    assert forall a, b :: a in files && b in files && Moved(a, src, dst) == Moved(b, src, dst) ==> a == b by {
      forall a, b | a in files && b in files && Moved(a, src, dst) == Moved(b, src, dst)
        ensures a == b
      {
        MovedInjective(a, b, src, dst);
      }
    }
    map k | k in files :: Moved(k, src, dst) := files[k]
  }

  /** The directories after renaming src to dst. */
  function MoveDirs(dirs: set<string>, src: string, dst: string): (r: set<string>)
    ensures forall k :: k in dirs ==> Moved(k, src, dst) in r
    ensures forall q :: q in r ==> exists k :: k in dirs && q == Moved(k, src, dst)
  {
    set k | k in dirs :: Moved(k, src, dst)
  }

  /** After a rename, a path outside src is where it was, a path inside src is
      at the same place inside dst, and nothing is left at src or inside it
      unless it is inside dst too. */
  lemma {:induction false} RenameMovesTree(files: map<string, string>, dirs: set<string>, src: string, dst: string)
    requires Vacant(files.Keys + dirs, dst)
    ensures forall k :: k in files && !Within(k, src) ==> k in MoveFiles(files, src, dst) && MoveFiles(files, src, dst)[k] == files[k]
    ensures forall k :: k in files && Within(k, src) ==> MoveFiles(files, src, dst)[dst + k[|src|..]] == files[k]
    ensures forall k :: k in dirs && !Within(k, src) ==> k in MoveDirs(dirs, src, dst)
    ensures forall k :: k in dirs && Within(k, src) ==> dst + k[|src|..] in MoveDirs(dirs, src, dst)
    ensures forall q :: q in MoveFiles(files, src, dst) && Within(q, src) ==> Within(q, dst)
    ensures forall q :: q in MoveDirs(dirs, src, dst) && Within(q, src) ==> Within(q, dst)
  {
    var r := MoveFiles(files, src, dst);
    forall q | q in r && Within(q, src)
      ensures Within(q, dst)
    {
      var k :| k in files && q == Moved(k, src, dst);
    }
    var d := MoveDirs(dirs, src, dst);
    forall q | q in d && Within(q, src)
      ensures Within(q, dst)
    {
      var k :| k in dirs && q == Moved(k, src, dst);
    }
  }

  /** In a tree, nothing is stored inside a file. */
  lemma NothingInsideFile(files: map<string, string>, dirs: set<string>, src: string)
    requires Tree(files, dirs) && src in files && src != []
    ensures forall k :: k in files.Keys + dirs && Within(k, src) ==> k == src
  {
    forall k | k in files.Keys + dirs && k != src
      ensures !Within(k, src)
    {
      if Within(k, src) {
        assert false;
      }
    }
  }

  /** Renaming a file in a tree moves that one file and leaves the
      directories as they were. */
  lemma RenameFile(files: map<string, string>, dirs: set<string>, src: string, dst: string)
    requires Tree(files, dirs) && src in files && src != [] && Vacant(files.Keys + dirs, dst)
    ensures MoveFiles(files, src, dst) == files - {src} + map[dst := files[src]]
    ensures MoveDirs(dirs, src, dst) == dirs
  {
    NothingInsideFile(files, dirs, src);
    assert MoveFiles(files, src, dst) == files - {src} + map[dst := files[src]] by {
      FileMoved(files, src, dst);
    }
    var d := MoveDirs(dirs, src, dst);
    forall q | q in d
      ensures q in dirs
    {
      var k :| k in dirs && q == Moved(k, src, dst);
      assert q == k;
    }
    forall q | q in dirs
      ensures q in d
    {
      assert Moved(q, src, dst) == q;
    }
  }

  /** The file texts after moving a path that has nothing inside it. */
  lemma FileMoved(files: map<string, string>, src: string, dst: string)
    requires src in files && Vacant(files.Keys, dst)
    requires forall k :: k in files && Within(k, src) ==> k == src
    ensures MoveFiles(files, src, dst) == files - {src} + map[dst := files[src]]
  {
    var r := MoveFiles(files, src, dst);
    var e := files - {src} + map[dst := files[src]];
    assert Moved(src, src, dst) == dst;
    forall q | q in r
      ensures q in e && r[q] == e[q]
    {
      var k :| k in files && q == Moved(k, src, dst);
      if k != src {
        assert q == k;
      }
    }
    forall q | q in e
      ensures q in r
    {
      if q != dst {
        assert Moved(q, src, dst) == q;
      }
    }
  }

  class Store {
    var files: map<string, string>
    var dirs: set<string>
    var unwritable: map<string, string>

    constructor (files0: map<string, string>, dirs0: set<string>, unwritable0: map<string, string>)
      ensures files == files0 && dirs == dirs0 && unwritable == unwritable0
    {
      files := files0;
      dirs := dirs0;
      unwritable := unwritable0;
    }

    /** `Path.exists()`. */
    predicate Exists(p: string)
      reads this
    {
      p in files || p in dirs
    }

    /** `Path.is_file()`. */
    predicate IsFile(p: string)
      reads this
    {
      p in files
    }

    /** `Path.is_dir()`. */
    predicate IsDir(p: string)
      reads this
    {
      p in dirs
    }

    /** The error `open(p, 'w')` raises, if any. */
    function WriteError(p: string): (e: Option<string>)
      reads this
    {
      OpenError(dirs, unwritable, p)
    }

    /** `open(p, 'w').write(text)`: replaces the whole file, or fails and
        changes nothing. */
    method Write(p: string, text: string) returns (err: Option<string>)
      modifies this
      ensures err == old(WriteError(p))
      ensures err.None? ==> files == old(files)[p := text]
      ensures err.Some? ==> files == old(files)
      ensures dirs == old(dirs) && unwritable == old(unwritable)
    {
      err := WriteError(p);
      if err.None? {
        files := files[p := text];
      }
    }

    /** `Path.unlink()` of an existing file. */
    method Remove(p: string)
      requires p in files
      modifies this
      ensures files == old(files) - {p}
      ensures dirs == old(dirs) && unwritable == old(unwritable)
    {
      files := files - {p};
    }

    /** The store is a tree: no path is both a file and a directory, and every
        ancestor directory of a stored path is stored as a directory. */
    predicate Valid()
      reads this
    {
      Tree(files, dirs)
    }

    /** `Path.rename(dst)` of an existing file or directory onto a path that
        does not exist: the path and everything inside it move under dst. */
    method Rename(src: string, dst: string)
      requires Valid() && Exists(src) && !Exists(dst) && dst != []
      modifies this
      ensures Vacant(old(files).Keys + old(dirs), dst)
      ensures files == MoveFiles(old(files), src, dst) && dirs == MoveDirs(old(dirs), src, dst)
      ensures unwritable == old(unwritable)
    {
      assert Vacant(files.Keys + dirs, dst) by { VacantTarget(files, dirs, dst); }
      files := MoveFiles(files, src, dst);
      dirs := MoveDirs(dirs, src, dst);
    }
  }
}
