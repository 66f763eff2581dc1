/**
 * scripts/run.ts: validate the environment alias, rewrite it to a profile file name and
 * run the profile materializer (a copy of the one in scripts/environment.setup.ts)
 * with the root file `.env`.
 */
module RunScript {
  import opened Wrappers
  import opened FileSystem
  import opened EnvironmentSetup

  /** The alternatives of `/^(local|development|production|dev|prod|p|d)$/`, in order. */
  const EnvAlternatives: seq<string> := ["local", "development", "production", "dev", "prod", "p", "d"]
  /** The alternatives of `/^(dev|development|d)$/`. */
  const DevAlternatives: seq<string> := ["dev", "development", "d"]
  /** The alternatives of `/^(prod|production|p)$/`. */
  const ProdAlternatives: seq<string> := ["prod", "production", "p"]

  const DevReplacement: string := ".env.development"
  const ProdReplacement: string := ".env.production"
  const EnvReplacement: string := ".env.$1"

  /** The root environment file `run` asks for. */
  const RootEnvironment: Name := ".env"

  /**
   * Matching `^(a1|...|an)$` against `s`: it matches iff `s` is one of the alternatives,
   * and the first group then captures all of `s`.
   */
  function MatchWhole(alternatives: seq<string>, s: string): (m: Option<string>)
    ensures m.Some? <==> s in alternatives
    ensures m.Some? ==> m.value == s
  {
    if alternatives == [] then None
    else if alternatives[0] == s then Some(alternatives[0])
    else MatchWhole(alternatives[1..], s)
  }

  /**
   * A replacement pattern with every `$1` replaced by the captured group. Only `$1` is
   * recognised: JavaScript's other patterns (`$$`, `$&`, `` $` ``, `$'`, `$2` ...) are copied
   * as they are, which agrees with JavaScript for the three patterns `transform` uses, since
   * none of them holds a `$` other than `$1`.
   */
  function Expand(replacement: string, group: string): (r: string)
    ensures '$' !in replacement ==> r == replacement
    decreases |replacement|
  {
    if replacement == [] then []
    else if |replacement| >= 2 && replacement[0] == '$' && replacement[1] == '1' then
      group + Expand(replacement[2..], group)
    else [replacement[0]] + Expand(replacement[1..], group)
  }

  /** A literal prefix followed by `$1` expands to the prefix followed by the group. */
  lemma {:induction false} ExpandGroupSuffix(prefix: string, group: string)
    requires '$' !in prefix
    ensures Expand(prefix + "$1", group) == prefix + group
  {
    if prefix == [] {
      assert prefix + "$1" == "$1";
      assert Expand("$1", group) == group + Expand([], group);
    } else {
      var t := prefix + "$1";
      assert t[0] == prefix[0] && t[0] != '$';
      assert t[1..] == prefix[1..] + "$1";
      ExpandGroupSuffix(prefix[1..], group);
      assert [prefix[0]] + prefix[1..] == prefix;
    }
  }

  /** `s.replace(regex, replacement)` for an anchored alternation: no match leaves `s` as it is. */
  function Replace(s: string, alternatives: seq<string>, replacement: string): (r: string)
    ensures s !in alternatives ==> r == s
    ensures s in alternatives ==> r == Expand(replacement, s)
  {
    match MatchWhole(alternatives, s)
    case None => s
    case Some(group) => Expand(replacement, group)
  }

  /** `envRegex.test(s)`: exactly the seven tokens pass, and nothing around them. */
  predicate EnvRegexTest(s: string)
    ensures EnvRegexTest(s) <==> s in EnvAlternatives
  {
    MatchWhole(EnvAlternatives, s).Some?
  }

  /**
   * `transform`: the development family becomes `.env.development`, the production family
   * `.env.production`, any other token `.env.` followed by the token, and an alias the
   * regular expression does not match comes back unchanged.
   */
  function Transform(environment: string): (r: string)
    ensures environment in DevAlternatives ==> r == ".env.development"
    ensures environment in ProdAlternatives ==> r == ".env.production"
    ensures environment in EnvAlternatives && environment !in DevAlternatives && environment !in ProdAlternatives ==>
      r == ".env." + environment
    ensures environment !in EnvAlternatives ==> r == environment
  {
    if MatchWhole(DevAlternatives, environment).Some? then
      assert environment in EnvAlternatives && environment !in ProdAlternatives;
      assert '$' !in DevReplacement;
      Replace(environment, DevAlternatives, DevReplacement)
    else if MatchWhole(ProdAlternatives, environment).Some? then
      assert environment in EnvAlternatives;
      assert '$' !in ProdReplacement;
      Replace(environment, ProdAlternatives, ProdReplacement)
    else
      assert ".env." + "$1" == EnvReplacement;
      ExpandGroupSuffix(".env.", environment);
      Replace(environment, EnvAlternatives, EnvReplacement)
  }

  /** The check in `run`: an empty alias is falsy and skips the test; any other must be a token. */
  predicate AliasAccepted(alias: string)
    ensures AliasAccepted(alias) <==> alias == "" || alias in EnvAlternatives
  {
    !(alias != "" && !EnvRegexTest(alias))
  }

  /** `local` becomes `.env.local`. */
  lemma TransformLocal(alias: string)
    requires alias == "local"
    ensures Transform(alias) == ".env.local"
  {
    assert alias == EnvAlternatives[0];
    assert alias !in DevAlternatives;
    assert alias !in ProdAlternatives;
    assert ".env." + alias == ".env.local";
  }

  /** An alias the regular expression does not match comes back unchanged. */
  lemma TransformUnmatched(alias: string)
    requires !EnvRegexTest(alias)
    ensures Transform(alias) == alias
  {
  }

  /** A non-empty alias is accepted iff it is exactly one of the seven tokens; matching is case-sensitive. */
  lemma AliasAcceptedIff(alias: string)
    ensures alias != "" ==>
      (AliasAccepted(alias) <==>
         alias in ["local", "development", "production", "dev", "prod", "p", "d"])
    ensures AliasAccepted("")
  {
  }

  /** Matching is case-sensitive and knows no other names: `Dev`, `staging` and `test` are rejected. */
  lemma AliasRejectedExamples(alias: string)
    requires alias in ["Dev", "staging", "test"]
    ensures !AliasAccepted(alias)
  {
  }

  /** The three names `transform` can produce for an accepted alias are allow-listed, and are not the short or test names. */
  lemma ProducedProfilesAllowed(name: string)
    requires name == ".env.local" || name == ".env.development" || name == ".env.production"
    ensures name in ValidFiles
    ensures name !in [".env.dev", ".env.prod", ".env.test"]
  {
  }

  /**
   * Every accepted non-empty alias becomes an allow-listed profile, and always one of
   * `.env.local`, `.env.development` and `.env.production`.
   */
  lemma TransformAcceptedProfile(alias: string)
    requires alias != "" && AliasAccepted(alias)
    ensures Transform(alias) in [".env.local", ".env.development", ".env.production"]
    ensures Transform(alias) in ValidFiles
    ensures Transform(alias) !in [".env.dev", ".env.prod", ".env.test"]
  {
    var name := Transform(alias);
    if alias in DevAlternatives {
      assert name == ".env.development";
    } else if alias in ProdAlternatives {
      assert name == ".env.production";
    } else {
      assert alias == "local";
      TransformLocal(alias);
    }
    ProducedProfilesAllowed(name);
  }

  /** How `run` ends: exit 1 on an invalid alias or an undefined options object, else as the materializer ends. */
  datatype RunOutcome = InvalidEnvironment(alias: string) | UndefinedParams | SteppedUp(outcome: Outcome)

  datatype RunResult = RunResult(outcome: RunOutcome, after: FsState, ops: seq<Op>)

  /** The process exit code: 0 exactly when the root file was created, 1 otherwise. */
  function ExitCode(o: RunOutcome): (code: int)
    ensures code == 0 || code == 1
    ensures code == 0 <==> o.SteppedUp? && o.outcome.Created?
  {
    if o.SteppedUp? && o.outcome.Created? then 0 else 1
  }

  /** run.ts's copy of `environmentStepUp`: destructuring an undefined argument throws before any step. */
  function RunTsStepUp(s: FsState, appPath: Path, params: Option<Params>): (r: RunResult)
    ensures params.None? ==> r.outcome == UndefinedParams && ExitCode(r.outcome) == 1 && r.after == s && r.ops == []
    ensures params.Some? ==> r.outcome.SteppedUp? && r.ops <= Plan(s, appPath, params.value)
    ensures params.Some? && r.after.files != s.files ==> r.outcome == SteppedUp(Created(RootPath(appPath, params.value)))
  {
    match params
    case None => RunResult(UndefinedParams, s, [])
    case Some(p) =>
      var r := StepUp(s, appPath, p);
      RunResult(SteppedUp(r.outcome), r.after, r.ops)
  }

  /** `run` with the alias given by `-e` (Commander's default is `local`). */
  function RunSpec(s: FsState, appPath: Path, alias: string): (r: RunResult)
    ensures r.outcome.InvalidEnvironment? <==> !AliasAccepted(alias)
    ensures r.outcome.InvalidEnvironment? ==> r.outcome.alias == alias && r.after == s && r.ops == []
    ensures r.outcome != UndefinedParams
    ensures AliasAccepted(alias) ==> r.ops <= Plan(s, appPath, Params(Some(RootEnvironment), Some(Transform(alias))))
  {
    if !AliasAccepted(alias) then RunResult(InvalidEnvironment(alias), s, [])
    else RunTsStepUp(s, appPath, Some(Params(Some(RootEnvironment), Some(Transform(alias)))))
  }

  /** An alias outside the seven tokens exits with code 1 before any file-system call. */
  lemma RunRejects(s: FsState, appPath: Path, alias: string)
    requires alias != "" && alias !in EnvAlternatives
    ensures var r := RunSpec(s, appPath, alias);
      r.outcome == InvalidEnvironment(alias) && ExitCode(r.outcome) == 1 && r.after == s && r.ops == []
  {
  }

  /**
   * For an accepted alias, the root file `appPath/.env` receives the bytes of the selected
   * allow-listed profile when the run exits with 0, and no file changes when it exits with 1.
   */
  lemma RunCopiesSelectedProfile(s: FsState, appPath: Path, alias: string)
    requires alias != "" && AliasAccepted(alias)
    ensures var r := RunSpec(s, appPath, alias);
      var profile := Join(ConfigPath(appPath), Transform(alias));
      var root := Join(appPath, ".env");
      Transform(alias) in ValidFiles &&
      (ExitCode(r.outcome) == 0 ==>
         profile in s.files && r.after.files == s.files[root := s.files[profile]]) &&
      (ExitCode(r.outcome) == 1 ==> r.after.files == s.files)
  {
    var p := Params(Some(RootEnvironment), Some(Transform(alias)));
    TransformAcceptedProfile(alias);
    StepUpSuccess(s, appPath, p);
    StepUpAbortKeepsFiles(s, appPath, p);
  }

  /**
   * The empty alias passes the check, becomes the empty profile name, and so names the
   * configuration directory itself, which cannot be loaded: the run always exits with 1.
   */
  lemma RunEmptyAlias(s: FsState, appPath: Path)
    ensures var r := RunSpec(s, appPath, "");
      r.outcome.SteppedUp? && ExitCode(r.outcome) == 1 && r.after.files == s.files
  {
    var p := Params(Some(RootEnvironment), Some(Transform("")));
    assert Transform("") == "";
    assert EnvPath(appPath, p) == ConfigPath(appPath);
    StepUpSuccess(s, appPath, p);
    StepUpAbortKeepsFiles(s, appPath, p);
  }

  /** `environmentStepUp` as written in run.ts. */
  method EnvironmentStepUp(disk: Disk, appPath: Path, params: Option<Params>) returns (outcome: RunOutcome)
    modifies disk
    ensures var r := RunTsStepUp(old(disk.State()), appPath, params);
      outcome == r.outcome && disk.State() == r.after && disk.log == old(disk.log) + r.ops
  {
    if params.None? {
      return UndefinedParams;
    }
    var o := EnvironmentSetup.EnvironmentStepUp(disk, appPath, params.value);
    return SteppedUp(o);
  }

  /** `run`: reject an invalid alias, otherwise materialize the transformed profile as `.env`. */
  method Run(disk: Disk, appPath: Path, alias: string) returns (outcome: RunOutcome)
    modifies disk
    ensures var r := RunSpec(old(disk.State()), appPath, alias);
      outcome == r.outcome && disk.State() == r.after && disk.log == old(disk.log) + r.ops
  {
    if alias != "" && !EnvRegexTest(alias) {
      return InvalidEnvironment(alias);
    }
    var environment := Transform(alias);
    outcome := EnvironmentStepUp(disk, appPath, Some(Params(Some(RootEnvironment), Some(environment))));
  }
}
