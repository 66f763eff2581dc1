/**
 * An abstract disk and the Node.js primitives the setup scripts call on it:
 * `fs.existsSync`, `shell.mkdir('-p', ...)`, `fs.readdirSync`, the read performed by
 * `dotenv.config` and `fs.copyFileSync`. Each primitive is a function on a value of the
 * disk; the `Disk` class holds that value in fields, performs the primitives in place
 * and records every call it makes in `log`.
 */
module FileSystem {
  import opened Wrappers

  type Path = string
  type Name = string
  type Bytes = seq<bv8>

  /** The error codes the primitives can raise (ENOENT, ENOTDIR, EISDIR). */
  datatype FsError = NotFound | NotADirectory | IsADirectory

  /**
   * Every directory with its entries in the order a listing returns them,
   * and every regular file with its bytes.
   */
  datatype FsState = FsState(dirs: map<Path, seq<Name>>, files: map<Path, Bytes>)

  /** One call into the file system, in the order the calls are made. */
  datatype Op =
    | Stat(path: Path)
    | MakeDir(path: Path)
    | ListDir(path: Path)
    | ReadFile(path: Path)
    | CopyFile(src: Path, dst: Path)

  /** `p` names something strictly inside directory `d`. */
  predicate IsUnder(d: Path, p: Path) {
    |d| < |p| && p[..|d|] == d && p[|d|] == '/'
  }

  /** The proper ancestors of `p`: every prefix that ends just before a `/`. */
  function Ancestors(p: Path): (r: set<Path>)
    ensures forall d :: d in r <==> IsUnder(d, p)
  {
    var r := set i | 0 <= i < |p| && p[i] == '/' :: p[..i];
    assert forall d :: IsUnder(d, p) ==> d == p[..|d|] && d in r;
    r
  }

  lemma IsUnderTransitive(a: Path, b: Path, c: Path)
    requires IsUnder(a, b) && IsUnder(b, c)
    ensures IsUnder(a, c)
  {
    assert c[..|b|][..|a|] == c[..|a|];
  }

  /** Some proper ancestor of `p` is a regular file, so nothing can exist at `p` (ENOTDIR). */
  predicate UnderFile(s: FsState, p: Path) {
    exists a | a in Ancestors(p) :: a in s.files
  }

  /**
   * A disk on which no path is both a directory and a regular file, and nothing lives
   * inside a directory that does not exist.
   */
  ghost predicate WellFormed(s: FsState) {
    (forall p :: p in s.dirs ==> p !in s.files) &&
    (forall d, p :: (p in s.dirs || p in s.files) && IsUnder(d, p) ==> d in s.dirs)
  }

  /** `path.resolve(base, segment)` for a relative segment: an empty segment is dropped. */
  function Join(base: Path, segment: Path): (p: Path)
    ensures segment == "" ==> p == base
    ensures segment != "" ==> |p| == |base| + 1 + |segment|
  {
    if segment == "" then base else base + "/" + segment
  }

  /** A non-empty segment lands strictly inside its base, and the segment can be read back. */
  lemma JoinUnder(base: Path, segment: Path)
    requires segment != ""
    ensures IsUnder(base, Join(base, segment))
    ensures Join(base, segment)[|base| + 1..] == segment
  {
    var p := base + "/" + segment;
    assert p[..|base|] == base;
  }

  /** `fs.existsSync`: a path exists iff it can be listed as a directory or read as a file. */
  predicate Exists(s: FsState, p: Path)
    ensures Exists(s, p) <==> ReadDir(s, p).Ok? || Load(s, p).Ok?
  {
    p in s.dirs || p in s.files
  }

  /** The directories `shell.mkdir('-p', p)` creates: `p` and its missing ancestors. */
  function Missing(s: FsState, p: Path): set<Path> {
    (Ancestors(p) + {p}) - s.dirs.Keys
  }

  /**
   * `shell.mkdir('-p', p)`: creates `p` and every missing ancestor, each empty. Nothing is
   * created when something already exists at `p` or when an ancestor is a regular file.
   */
  function Mkdir(s: FsState, p: Path): (r: FsState)
    ensures Exists(s, p) || UnderFile(s, p) ==> r == s
    ensures !Exists(s, p) && !UnderFile(s, p) ==>
      p in r.dirs && r.dirs[p] == [] && forall a :: IsUnder(a, p) ==> a in r.dirs
    ensures r.files == s.files
    ensures forall q :: q in s.dirs ==> q in r.dirs && r.dirs[q] == s.dirs[q]
    ensures forall q :: q in r.dirs ==> q in s.dirs || q == p || IsUnder(q, p)
    ensures forall q :: q in r.dirs && q !in s.dirs ==> r.dirs[q] == []
  {
    if Exists(s, p) || UnderFile(s, p) then s
    else FsState(s.dirs + map d | d in Missing(s, p) :: [], s.files)
  }

  /** `mkdir -p` keeps a well-formed disk well-formed. */
  lemma MkdirKeepsWellFormed(s: FsState, p: Path)
    requires WellFormed(s)
    ensures WellFormed(Mkdir(s, p))
  {
    var r := Mkdir(s, p);
    if !Exists(s, p) && !UnderFile(s, p) {
      forall q | q in r.dirs
        ensures q !in r.files
      {
        if q !in s.dirs {
          assert q == p || q in Ancestors(p);
        }
      }
      forall d, q | (q in r.dirs || q in r.files) && IsUnder(d, q)
        ensures d in r.dirs
      {
        if q !in s.dirs && q !in s.files {
          if q != p {
            IsUnderTransitive(d, q, p);
          }
        }
      }
    }
  }

  /** `fs.readdirSync(p)`: the entries of a directory; ENOTDIR under or on a file, ENOENT otherwise. */
  function ReadDir(s: FsState, p: Path): (r: Result<seq<Name>, FsError>)
    ensures r.Ok? <==> p in s.dirs
    ensures r.Ok? ==> r.value == s.dirs[p]
    ensures r.Err? && (p in s.files || UnderFile(s, p)) ==> r.error == NotADirectory
  {
    if p in s.dirs then Ok(s.dirs[p])
    else if p in s.files || UnderFile(s, p) then Err(NotADirectory)
    else Err(NotFound)
  }

  /**
   * The outcome of `dotenv.config({ path: p })`: it reads the file and reports the read error,
   * if any, in its `error` field. Parsing never fails, so only the read decides.
   */
  function Load(s: FsState, p: Path): (r: Result<(), FsError>)
    ensures r.Ok? <==> p in s.files && p !in s.dirs
    ensures p in s.dirs ==> r == Err(IsADirectory)
    ensures p !in s.dirs && p !in s.files && UnderFile(s, p) ==> r == Err(NotADirectory)
    ensures p !in s.dirs && p !in s.files && !UnderFile(s, p) ==> r == Err(NotFound)
  {
    if p in s.dirs then Err(IsADirectory)
    else if p in s.files then Ok(())
    else if UnderFile(s, p) then Err(NotADirectory)
    else Err(NotFound)
  }

  /** A regular file can be created or overwritten at `dst`: no directory is there and every ancestor is one. */
  predicate Creatable(s: FsState, dst: Path) {
    dst !in s.dirs && !UnderFile(s, dst) && forall a | a in Ancestors(dst) :: a in s.dirs
  }

  /**
   * `fs.copyFileSync(src, dst)`: creates or overwrites `dst` with the bytes of `src`. The failures
   * leave the disk unchanged, which holds on the assumption that a source that is no regular file
   * is refused before `dst` is opened; the procedure only copies a profile `Load` has accepted.
   */
  function Copy(s: FsState, src: Path, dst: Path): (r: Result<FsState, FsError>)
    ensures r.Ok? <==> Load(s, src).Ok? && Creatable(s, dst)
    ensures r.Ok? ==> r.value.dirs == s.dirs
    ensures r.Ok? ==> dst in r.value.files && r.value.files[dst] == s.files[src]
    ensures r.Ok? ==> forall q :: q != dst ==> (q in r.value.files <==> q in s.files)
    ensures r.Ok? ==> forall q :: q in s.files && q != dst ==> r.value.files[q] == s.files[q]
  {
    if src in s.dirs then Err(IsADirectory)
    else if src !in s.files then (if UnderFile(s, src) then Err(NotADirectory) else Err(NotFound))
    else if dst in s.dirs then Err(IsADirectory)
    else if UnderFile(s, dst) then Err(NotADirectory)
    else if !(forall a | a in Ancestors(dst) :: a in s.dirs) then Err(NotFound)
    else Ok(FsState(s.dirs, s.files[dst := s.files[src]]))
  }

  /** A successful copy keeps a well-formed disk well-formed. */
  lemma CopyKeepsWellFormed(s: FsState, src: Path, dst: Path)
    requires WellFormed(s) && Copy(s, src, dst).Ok?
    ensures WellFormed(Copy(s, src, dst).value)
  {
    var r := Copy(s, src, dst).value;
    forall d, q | (q in r.dirs || q in r.files) && IsUnder(d, q)
      ensures d in r.dirs
    {
      if q == dst {
        assert d in Ancestors(dst);
      }
    }
  }

  /** The disk the scripts run against, updated in place. */
  class Disk {
    var dirs: map<Path, seq<Name>>
    var files: map<Path, Bytes>
    /** The file-system calls made so far, oldest first. */
    var log: seq<Op>

    function State(): FsState
      reads this
    {
      FsState(dirs, files)
    }

    constructor (s: FsState)
      ensures State() == s && log == []
    {
      dirs, files, log := s.dirs, s.files, [];
    }

    method ExistsSync(p: Path) returns (b: bool)
      modifies this`log
      ensures b == Exists(old(State()), p)
      ensures State() == old(State()) && log == old(log) + [Stat(p)]
    {
      b := p in dirs || p in files;
      log := log + [Stat(p)];
    }

    method MkdirP(p: Path)
      modifies this
      ensures State() == Mkdir(old(State()), p)
      ensures log == old(log) + [MakeDir(p)]
    {
      var blocked := exists a | a in Ancestors(p) :: a in files;
      if !(p in dirs || p in files) && !blocked {
        var missing := (Ancestors(p) + {p}) - dirs.Keys;
        dirs := dirs + map d | d in missing :: [];
      }
      log := log + [MakeDir(p)];
    }

    method ReaddirSync(p: Path) returns (r: Result<seq<Name>, FsError>)
      modifies this`log
      ensures r == ReadDir(old(State()), p)
      ensures State() == old(State()) && log == old(log) + [ListDir(p)]
    {
      if p in dirs {
        r := Ok(dirs[p]);
      } else if p in files || exists a | a in Ancestors(p) :: a in files {
        r := Err(NotADirectory);
      } else {
        r := Err(NotFound);
      }
      log := log + [ListDir(p)];
    }

    method LoadDotenv(p: Path) returns (r: Result<(), FsError>)
      modifies this`log
      ensures r == Load(old(State()), p)
      ensures State() == old(State()) && log == old(log) + [ReadFile(p)]
    {
      if p in dirs {
        r := Err(IsADirectory);
      } else if p in files {
        r := Ok(());
      } else if exists a | a in Ancestors(p) :: a in files {
        r := Err(NotADirectory);
      } else {
        r := Err(NotFound);
      }
      log := log + [ReadFile(p)];
    }

    /** `Copy` in place; the source is assumed to be a regular file whenever a failure must leave `dst` alone. */
    method CopyFileSync(src: Path, dst: Path) returns (r: Result<(), FsError>)
      modifies this
      ensures var c := Copy(old(State()), src, dst);
        (c.Ok? ==> r == Ok(()) && State() == c.value) &&
        (c.Err? ==> r == Err(c.error) && State() == old(State()))
      ensures log == old(log) + [CopyFile(src, dst)]
    {
      var c := Copy(State(), src, dst);
      if c.Ok? {
        files := files[dst := files[src]];
        r := Ok(());
      } else {
        r := Err(c.error);
      }
      log := log + [CopyFile(src, dst)];
    }
  }
}
