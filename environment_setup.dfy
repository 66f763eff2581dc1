/**
 * The profile materializer of scripts/environment.setup.ts: make sure the configuration
 * directory exists, refuse to go on when it holds a file outside the allow-list, load the
 * selected profile and copy it over the root environment file.
 */
module EnvironmentSetup {
  import opened Wrappers
  import opened FileSystem

  /** The only names allowed in the configuration directory. */
  const ValidFiles: seq<Name> :=
    [".env.local", ".env.dev", ".env.development", ".env.prod", ".env.production", ".env.test"]

  const DefaultRootEnvironment: Name := ".env"
  const DefaultEnvironment: Name := ".env.local"

  /** The configuration directory, relative to the application directory. */
  const ConfigDir: Path := "scripts/config"

  /** The options object; a missing member is `None`. */
  datatype Params = Params(rootEnvironment: Option<Name>, environment: Option<Name>)

  /** Why a run ended with `shell.exit(1)` or an uncaught exception (also exit code 1). */
  datatype Failure =
    | UnexpectedFiles(names: seq<Name>)
    | LoadFailed(error: FsError)
    | Uncaught(error: FsError)

  datatype Outcome = Created(rootPath: Path) | Exited(failure: Failure)

  /** What one run does: how it ends, the disk afterwards, and the calls it made. */
  datatype StepUpRun = StepUpRun(outcome: Outcome, after: FsState, ops: seq<Op>)

  function ConfigPath(appPath: Path): Path {
    Join(appPath, ConfigDir)
  }

  function EnvPath(appPath: Path, p: Params): Path {
    Join(ConfigPath(appPath), p.environment.GetOr(DefaultEnvironment))
  }

  function RootPath(appPath: Path, p: Params): Path {
    Join(appPath, p.rootEnvironment.GetOr(DefaultRootEnvironment))
  }

  /** The entries of a listing that are not allow-listed, in listing order. */
  function CheckList(listing: seq<Name>): (r: seq<Name>)
    ensures forall n :: n in r <==> n in listing && n !in ValidFiles
    ensures |r| <= |listing|
    ensures r == [] <==> forall n :: n in listing ==> n in ValidFiles
  {
    if listing == [] then []
    else (if listing[0] in ValidFiles then [] else [listing[0]]) + CheckList(listing[1..])
  }

  /** Filtering commutes with concatenation, so the order of the listing is kept. */
  lemma {:induction false} CheckListAppend(a: seq<Name>, b: seq<Name>)
    ensures CheckList(a + b) == CheckList(a) + CheckList(b)
  {
    if a == [] {
      assert a + b == b;
    } else {
      assert (a + b)[0] == a[0];
      assert (a + b)[1..] == a[1..] + b;
      CheckListAppend(a[1..], b);
    }
  }

  /** A listing of exactly the allow-list passes; one extra unknown file is reported alone. */
  lemma CheckListExamples(extra: Name)
    requires extra !in ValidFiles
    ensures CheckList(ValidFiles) == []
    ensures CheckList(ValidFiles + [extra]) == [extra]
  {
    CheckListAppend(ValidFiles, [extra]);
  }

  /** The calls of a run in which no step fails. */
  function Plan(s: FsState, appPath: Path, p: Params): seq<Op> {
    var configPath := ConfigPath(appPath);
    [Stat(configPath)]
      + (if Exists(s, configPath) then [] else [MakeDir(configPath)])
      + [ListDir(configPath), ReadFile(EnvPath(appPath, p)), CopyFile(EnvPath(appPath, p), RootPath(appPath, p))]
  }

  /** The disk after the first step: the configuration directory exists. */
  function Ensured(s: FsState, appPath: Path): FsState {
    Mkdir(s, ConfigPath(appPath))
  }

  /** The calls of the first step and the listing: `mkdir` only when nothing exists at the path. */
  function EnsureOps(s: FsState, appPath: Path): seq<Op> {
    var configPath := ConfigPath(appPath);
    [Stat(configPath)] + (if Exists(s, configPath) then [] else [MakeDir(configPath)]) + [ListDir(configPath)]
  }

  /** One run of `environmentStepUp`, step by step, stopping at the first failure. */
  function StepUp(s: FsState, appPath: Path, p: Params): (r: StepUpRun)
    ensures r.ops <= Plan(s, appPath, p)
    ensures r.outcome.Exited? ==> r.after == Ensured(s, appPath)
    ensures r.outcome.Created? ==> r.outcome.rootPath == RootPath(appPath, p) && r.ops == Plan(s, appPath, p)
  {
    var s1 := Ensured(s, appPath);
    var ops1 := EnsureOps(s, appPath);
    match ReadDir(s1, ConfigPath(appPath))
    case Err(e) => StepUpRun(Exited(Uncaught(e)), s1, ops1)
    case Ok(listing) => AfterListing(s1, ops1, listing, appPath, p)
  }

  /** The rest of a run once the configuration directory has been listed. */
  function AfterListing(s1: FsState, ops: seq<Op>, listing: seq<Name>, appPath: Path, p: Params): (r: StepUpRun)
    ensures ops <= r.ops
    ensures (r.outcome.Exited? && r.outcome.failure.UnexpectedFiles?) <==> CheckList(listing) != []
    ensures r.ops != ops <==> CheckList(listing) == []
    ensures r.outcome.Exited? ==> r.after == s1
  {
    var checkList := CheckList(listing);
    if |checkList| > 0 then StepUpRun(Exited(UnexpectedFiles(checkList)), s1, ops)
    else AfterCheck(s1, ops + [ReadFile(EnvPath(appPath, p))], appPath, p)
  }

  /** The rest of a run once the allow-list check has passed and the load has been attempted. */
  function AfterCheck(s1: FsState, ops: seq<Op>, appPath: Path, p: Params): (r: StepUpRun)
    ensures r.outcome.Created? <==> Load(s1, EnvPath(appPath, p)).Ok? && Creatable(s1, RootPath(appPath, p))
    ensures r.outcome.Exited? ==> r.after == s1
    ensures r.outcome.Created? ==>
      r.after.dirs == s1.dirs &&
      r.after.files == s1.files[RootPath(appPath, p) := s1.files[EnvPath(appPath, p)]]
  {
    var envPath := EnvPath(appPath, p);
    var rootPath := RootPath(appPath, p);
    match Load(s1, envPath)
    case Err(e) => StepUpRun(Exited(LoadFailed(e)), s1, ops)
    case Ok(_) =>
      var ops2 := ops + [CopyFile(envPath, rootPath)];
      match Copy(s1, envPath, rootPath)
      case Err(e) => StepUpRun(Exited(Uncaught(e)), s1, ops2)
      case Ok(s2) => StepUpRun(Created(rootPath), s2, ops2)
  }

  /** The allow-list check passes on the disk after the first step. */
  predicate CheckPasses(s: FsState, appPath: Path) {
    var s1 := Ensured(s, appPath);
    ConfigPath(appPath) in s1.dirs && CheckList(s1.dirs[ConfigPath(appPath)]) == []
  }

  /** Each omitted option is defaulted on its own: `rootEnvironment` to `.env`, `environment` to `.env.local`. */
  lemma StepUpDefaults(s: FsState, appPath: Path, root: Option<Name>, env: Option<Name>)
    ensures StepUp(s, appPath, Params(root, env))
         == StepUp(s, appPath, Params(Some(root.GetOr(".env")), Some(env.GetOr(".env.local"))))
  {
  }

  /** The calls are made in the fixed order of `Plan`, and each failure stops the run at the failing call. */
  lemma StepUpOrder(s: FsState, appPath: Path, p: Params)
    ensures var r := StepUp(s, appPath, p);
      var plan := Plan(s, appPath, p);
      r.ops <= plan &&
      (r.outcome.Created? ==> r.ops == plan) &&
      (r.outcome.Exited? && r.outcome.failure.UnexpectedFiles? ==> r.ops[|r.ops| - 1] == ListDir(ConfigPath(appPath))) &&
      (r.outcome.Exited? && r.outcome.failure.LoadFailed? ==> r.ops[|r.ops| - 1] == ReadFile(EnvPath(appPath, p)))
  {
  }

  /** The profile is read iff the allow-list check passed, and copied iff it was also loaded. */
  lemma StepUpGuards(s: FsState, appPath: Path, p: Params)
    ensures var r := StepUp(s, appPath, p);
      (ReadFile(EnvPath(appPath, p)) in r.ops <==> CheckPasses(s, appPath)) &&
      (CopyFile(EnvPath(appPath, p), RootPath(appPath, p)) in r.ops <==>
         CheckPasses(s, appPath) && Load(Ensured(s, appPath), EnvPath(appPath, p)).Ok?)
  {
  }

  /** A run aborts on unexpected files exactly when the listed directory holds a name outside the allow-list. */
  lemma StepUpUnexpectedFiles(s: FsState, appPath: Path, p: Params)
    ensures var r := StepUp(s, appPath, p);
      var s1 := Ensured(s, appPath);
      var c := ConfigPath(appPath);
      (r.outcome.Exited? && r.outcome.failure.UnexpectedFiles?)
        <==> c in s1.dirs && exists n :: n in s1.dirs[c] && n !in ValidFiles
  {
  }

  /** An aborted run leaves every file as it was; only the configuration directory may have been created. */
  lemma StepUpAbortKeepsFiles(s: FsState, appPath: Path, p: Params)
    ensures var r := StepUp(s, appPath, p);
      r.outcome.Exited? ==> r.after.files == s.files && r.after == Ensured(s, appPath)
  {
  }

  /**
   * A run succeeds exactly when the check passes, the profile is a regular file and a file can be
   * created at the root path; the root file then holds the profile's bytes and nothing else has changed.
   */
  lemma StepUpSuccess(s: FsState, appPath: Path, p: Params)
    ensures var r := StepUp(s, appPath, p);
      var s1 := Ensured(s, appPath);
      var envPath := EnvPath(appPath, p);
      var rootPath := RootPath(appPath, p);
      (r.outcome.Created? <==>
         CheckPasses(s, appPath) && envPath in s.files && envPath !in s1.dirs && Creatable(s1, rootPath)) &&
      (r.outcome.Created? ==>
         r.outcome.rootPath == rootPath &&
         r.after.dirs == s1.dirs &&
         r.after.files == s.files[rootPath := s.files[envPath]])
  {
    var r := StepUp(s, appPath, p);
    var s1 := Ensured(s, appPath);
    assert s1.files == s.files;
    if r.outcome.Created? {
      var envPath := EnvPath(appPath, p);
      var rootPath := RootPath(appPath, p);
      var s2 := Copy(s1, envPath, rootPath).value;
      assert s2.files == s.files[rootPath := s.files[envPath]];
    }
  }

  /**
   * On a well-formed disk without the configuration directory and without a regular file among its
   * ancestors, the run creates it, finds nothing unexpected in it, and then fails to load the profile,
   * which cannot exist yet.
   */
  lemma StepUpFreshConfigDir(s: FsState, appPath: Path, p: Params)
    requires WellFormed(s)
    requires !Exists(s, ConfigPath(appPath))
    requires !UnderFile(s, ConfigPath(appPath))
    ensures var r := StepUp(s, appPath, p);
      CheckPasses(s, appPath) &&
      MakeDir(ConfigPath(appPath)) in r.ops &&
      r.outcome.Exited? && r.outcome.failure.LoadFailed? &&
      r.after.files == s.files
  {
    var c := ConfigPath(appPath);
    var envPath := EnvPath(appPath, p);
    if envPath != c {
      JoinUnder(c, p.environment.GetOr(DefaultEnvironment));
      assert envPath !in s.files;
    }
  }

  /**
   * When an ancestor of the configuration directory is a regular file, `mkdir -p` creates nothing and
   * the listing throws ENOTDIR, which nothing catches: the disk is unchanged and no profile is read.
   */
  lemma StepUpConfigUnderFile(s: FsState, appPath: Path, p: Params)
    requires WellFormed(s)
    requires UnderFile(s, ConfigPath(appPath))
    ensures var c := ConfigPath(appPath);
      StepUp(s, appPath, p) == StepUpRun(Exited(Uncaught(NotADirectory)), s, [Stat(c), MakeDir(c), ListDir(c)])
  {
    var c := ConfigPath(appPath);
    var a :| a in Ancestors(c) && a in s.files;
    assert IsUnder(a, c) && a !in s.dirs;
  }

  /** A run keeps a well-formed disk well-formed. */
  lemma StepUpKeepsWellFormed(s: FsState, appPath: Path, p: Params)
    requires WellFormed(s)
    ensures WellFormed(StepUp(s, appPath, p).after)
  {
    var s1 := Ensured(s, appPath);
    MkdirKeepsWellFormed(s, ConfigPath(appPath));
    var r := StepUp(s, appPath, p);
    if r.outcome.Created? {
      CopyKeepsWellFormed(s1, EnvPath(appPath, p), RootPath(appPath, p));
    }
  }

  /**
   * `environmentStepUp`: the steps in order, each on the disk in place, returning at the first failure.
   */
  method EnvironmentStepUp(disk: Disk, appPath: Path, p: Params) returns (outcome: Outcome)
    modifies disk
    ensures var r := StepUp(old(disk.State()), appPath, p);
      outcome == r.outcome && disk.State() == r.after && disk.log == old(disk.log) + r.ops
  {
    ghost var s0, log0 := disk.State(), disk.log;
    var listing := EnsureConfigDir(disk, appPath);
    ghost var s1, ops1 := Ensured(s0, appPath), EnsureOps(s0, appPath);
    if listing.Err? {
      return Exited(Uncaught(listing.error));
    }
    var checkList := CheckList(listing.value);
    if |checkList| > 0 {
      return Exited(UnexpectedFiles(checkList));
    }
    outcome := LoadAndCopy(disk, appPath, p, log0, ops1);
  }

  /** The first step: `existsSync`, `shell.mkdir -p` only when nothing is there, then `readdirSync`. */
  method EnsureConfigDir(disk: Disk, appPath: Path) returns (listing: Result<seq<Name>, FsError>)
    modifies disk
    ensures var s1 := Ensured(old(disk.State()), appPath);
      disk.State() == s1 && listing == ReadDir(s1, ConfigPath(appPath)) &&
      disk.log == old(disk.log) + EnsureOps(old(disk.State()), appPath)
  {
    var configPath := Join(appPath, ConfigDir);
    var present := disk.ExistsSync(configPath);
    if !present {
      disk.MkdirP(configPath);
    }
    listing := disk.ReaddirSync(configPath);
  }

  /** The last step, once the allow-list check has passed: load the profile, then copy it to the root. */
  method LoadAndCopy(disk: Disk, appPath: Path, p: Params, ghost log0: seq<Op>, ghost ops: seq<Op>)
    returns (outcome: Outcome)
    requires disk.log == log0 + ops
    modifies disk
    ensures var r := AfterCheck(old(disk.State()), ops + [ReadFile(EnvPath(appPath, p))], appPath, p);
      outcome == r.outcome && disk.State() == r.after && disk.log == log0 + r.ops
  {
    var configPath := Join(appPath, ConfigDir);
    var envPath := Join(configPath, p.environment.GetOr(DefaultEnvironment));
    var rootPath := Join(appPath, p.rootEnvironment.GetOr(DefaultRootEnvironment));
    var env := disk.LoadDotenv(envPath);
    if env.Err? {
      return Exited(LoadFailed(env.error));
    }
    var copied := disk.CopyFileSync(envPath, rootPath);
    assert disk.log == log0 + (ops + [ReadFile(envPath)]) + [CopyFile(envPath, rootPath)];
    if copied.Err? {
      return Exited(Uncaught(copied.error));
    }
    return Created(rootPath);
  }
}
