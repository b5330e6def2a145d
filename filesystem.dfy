/**
  The part of a POSIX file system the downloader touches: regular files
  with text contents, directories, `Path.exists()`, `Path.mkdir(parents=True)`
  and `open(path, 'w')`. A path is its list of components relative to the
  working directory; the empty path is the working directory itself.
*/
module FileSystem {
  import opened Wrappers

  type Path = seq<string>

  /** The `OSError` subclasses the two operations raise. */
  datatype OsError =
    | FileExists      // `FileExistsError`: mkdir of something that exists
    | NotADirectory   // `NotADirectoryError`: a component of the path is a regular file
    | FileNotFound    // `FileNotFoundError`: the parent directory is missing
    | IsADirectory    // `IsADirectoryError`: opening a directory for writing

  function Parent(p: Path): Path
    requires p != []
  {
    p[..|p| - 1]
  }

  /**
    What a real directory tree guarantees: nothing is both a file and a
    directory, the working directory is neither, and every proper ancestor
    of an entry is a directory.
  */
  predicate Tree(files: map<Path, string>, dirs: set<Path>) {
    && [] !in files && [] !in dirs
    && (forall p :: p in files ==> p !in dirs)
    && (forall p, k :: p in files && 0 < k < |p| ==> p[..k] in dirs)
    && (forall p, k :: p in dirs && 0 < k < |p| ==> p[..k] in dirs)
  }

  /** `Path.exists()`. */
  predicate ExistsIn(files: map<Path, string>, dirs: set<Path>, p: Path) {
    p == [] || p in files || p in dirs
  }

  /** `Path.is_dir()`. */
  predicate IsDirIn(dirs: set<Path>, p: Path) {
    p == [] || p in dirs
  }

  /** Some proper ancestor of `p` is a regular file. */
  predicate UnderFile(files: map<Path, string>, p: Path) {
    exists k :: 0 < k < |p| && p[..k] in files
  }

  /** The non-empty prefixes of `p`, `p` included. */
  function Prefixes(p: Path): (r: set<Path>)
    ensures forall q :: q in r <==> (exists k :: 0 < k <= |p| && q == p[..k])
  {
    set k | 0 < k <= |p| :: p[..k]
  }

  /** `Path(p).mkdir(parents=True)`: the new set of directories, or the error raised. */
  function MakeDirsIn(files: map<Path, string>, dirs: set<Path>, p: Path): (r: Result<set<Path>, OsError>)
    ensures ExistsIn(files, dirs, p) ==> r == Err(FileExists)
    ensures !ExistsIn(files, dirs, p) && UnderFile(files, p) ==> r == Err(NotADirectory)
    ensures r.Ok? <==> !ExistsIn(files, dirs, p) && !UnderFile(files, p)
    ensures r.Ok? ==> r.value == dirs + Prefixes(p)
  {
    if ExistsIn(files, dirs, p) then Err(FileExists)
    else if UnderFile(files, p) then Err(NotADirectory)
    else Ok(dirs + Prefixes(p))
  }

  /** `open(p, 'w')`: the files after truncation (before anything is written), or the error raised. */
  function OpenWriteIn(files: map<Path, string>, dirs: set<Path>, p: Path): (r: Result<map<Path, string>, OsError>)
    ensures p in dirs || p == [] ==> r == Err(IsADirectory)
    ensures r.Ok? <==> p != [] && p !in dirs && IsDirIn(dirs, Parent(p))
    ensures r.Ok? ==> r.value == files[p := ""]
  {
    if p == [] || p in dirs then Err(IsADirectory)
    else if !IsDirIn(dirs, Parent(p)) then
      if UnderFile(files, p) then Err(NotADirectory) else Err(FileNotFound)
    else Ok(files[p := ""])
  }

  // ---------------------------------------------------------------------
  // Properties of the two operations

  /** `mkdir(parents=True)` keeps the tree a tree, and afterwards the path is a directory. */
  lemma MakeDirsKeepsTree(files: map<Path, string>, dirs: set<Path>, p: Path)
    requires Tree(files, dirs) && MakeDirsIn(files, dirs, p).Ok?
    ensures Tree(files, MakeDirsIn(files, dirs, p).value)
    ensures IsDirIn(MakeDirsIn(files, dirs, p).value, p)
  {
    var d := MakeDirsIn(files, dirs, p).value;
    forall k | 0 < k <= |p|
      ensures p[..k] !in files
    {
      if k == |p| {
        assert p[..k] == p;
      }
    }
    forall q, k | q in d && 0 < k < |q|
      ensures q[..k] in d
    {
      if q in Prefixes(p) {
        var j :| 0 < j <= |p| && q == p[..j];
        assert q[..k] == p[..k];
      }
    }
    assert p != [] ==> p == p[..|p|];
  }

  /** `mkdir` only adds directories, and only `p` and its ancestors. */
  lemma MakeDirsGrows(files: map<Path, string>, dirs: set<Path>, p: Path)
    requires MakeDirsIn(files, dirs, p).Ok?
    ensures dirs <= MakeDirsIn(files, dirs, p).value
    ensures forall q :: q in MakeDirsIn(files, dirs, p).value - dirs ==> 0 < |q| <= |p| && q == p[..|q|]
  {
  }

  /** Opening for writing keeps the tree a tree. */
  lemma OpenWriteKeepsTree(files: map<Path, string>, dirs: set<Path>, p: Path, text: string)
    requires Tree(files, dirs) && OpenWriteIn(files, dirs, p).Ok?
    ensures Tree(OpenWriteIn(files, dirs, p).value[p := text], dirs)
  {
    var f := OpenWriteIn(files, dirs, p).value[p := text];
    forall q, k | q in f && 0 < k < |q|
      ensures q[..k] in dirs
    {
      if q == p {
        if k < |p| - 1 {
          assert q[..k] == Parent(p)[..k];
        } else {
          assert q[..k] == Parent(p);
        }
      }
    }
  }

  /** In a tree, a missing path's parent is missing or a directory, never a file; so `open` fails only with a missing or non-directory parent. */
  lemma OpenWriteError(files: map<Path, string>, dirs: set<Path>, p: Path)
    requires Tree(files, dirs) && p != [] && p !in dirs
    requires OpenWriteIn(files, dirs, p).Err?
    ensures !IsDirIn(dirs, Parent(p))
    ensures OpenWriteIn(files, dirs, p) == Err(if Parent(p) in files || UnderFile(files, Parent(p)) then NotADirectory else FileNotFound)
  {
    var q := Parent(p);
    if UnderFile(files, p) {
      var k :| 0 < k < |p| && p[..k] in files;
      if k < |q| {
        assert q[..k] == p[..k];
      } else {
        assert p[..k] == q;
      }
    }
    if q in files {
      assert p[..|q|] == q;
    }
    if UnderFile(files, q) {
      var k :| 0 < k < |q| && q[..k] in files;
      assert p[..k] == q[..k];
    }
  }

  // ---------------------------------------------------------------------

  /** The disk: the contents of every regular file, and the set of directories. */
  class Disk {
    var files: map<Path, string>
    var dirs: set<Path>

    ghost predicate Valid()
      reads this
    {
      Tree(files, dirs)
    }

    constructor (files0: map<Path, string>, dirs0: set<Path>)
      requires Tree(files0, dirs0)
      ensures Valid() && files == files0 && dirs == dirs0
    {
      files := files0;
      dirs := dirs0;
    }

    predicate Exists(p: Path)
      reads this
    {
      ExistsIn(files, dirs, p)
    }

    /** `Path(p).mkdir(parents=True)`. */
    method MakeDirs(p: Path) returns (r: Result<(), OsError>)
      requires Valid()
      modifies this
      ensures Valid()
      ensures files == old(files)
      ensures MakeDirsIn(old(files), old(dirs), p).Err? ==>
        r == Err(MakeDirsIn(old(files), old(dirs), p).error) && dirs == old(dirs)
      ensures MakeDirsIn(old(files), old(dirs), p).Ok? ==>
        r == Ok(()) && dirs == MakeDirsIn(old(files), old(dirs), p).value
    {
      match MakeDirsIn(files, dirs, p)
      case Err(e) =>
        r := Err(e);
      case Ok(d) =>
        MakeDirsKeepsTree(files, dirs, p);
        dirs := d;
        r := Ok(());
    }

    /** `with open(p, 'w') as f: f.write(text)`. */
    method WriteText(p: Path, text: string) returns (r: Result<(), OsError>)
      requires Valid()
      modifies this
      ensures Valid()
      ensures dirs == old(dirs)
      ensures OpenWriteIn(old(files), old(dirs), p).Err? ==>
        r == Err(OpenWriteIn(old(files), old(dirs), p).error) && files == old(files)
      ensures OpenWriteIn(old(files), old(dirs), p).Ok? ==>
        r == Ok(()) && files == old(files)[p := text]
    {
      match OpenWriteIn(files, dirs, p)
      case Err(e) =>
        r := Err(e);
      case Ok(truncated) =>
        OpenWriteKeepsTree(files, dirs, p, text);
        files := truncated[p := text];
        r := Ok(());
    }
  }
}
