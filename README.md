# Environment profile setup, modelled in Dafny

The setup scripts of this web application pick an environment-variable profile and make it the
active one. `scripts/run.ts` takes an alias from the command line (`local`, `dev`, `p`, ...),
rejects any alias outside a fixed token list, and rewrites the alias to a profile file name
(`.env.development`, `.env.production`, `.env.local`). The profile materializer
(`environmentStepUp`, in `scripts/environment.setup.ts` and copied into `scripts/run.ts`)
then works on the file system in a fixed order:

1. it creates the configuration directory `scripts/config` if it is missing;
2. it aborts when that directory holds a name outside a six-name allow-list;
3. it loads the profile, and aborts when the load fails;
4. it copies the profile over the root environment file (`.env` by default).

The model has four modules:

- `Wrappers` (`wrappers.dfy`): `Option` and `Result`.
- `FileSystem` (`filesystem.dfy`): the disk as a value `FsState`. Each directory maps to the entries `readdirSync` lists for it, in listing order, and each regular file maps to its bytes. The Node primitives the scripts call are functions on that value: `fs.existsSync`, `shell.mkdir -p`, `fs.readdirSync`, the file read inside `dotenv.config`, and `fs.copyFileSync`. A `Disk` class holds the state in fields, performs each primitive in place, and appends each call to its `log`.
- `EnvironmentSetup` (`environment_setup.dfy`): the allow-list, the `checkList` filter, and `StepUp`, the specification of one run as a function. It also holds the imperative `EnvironmentStepUp` method on a `Disk`, proved equal to `StepUp`.
- `RunScript` (`run_script.dfy`): the anchored regular expressions as alternations and a `$1` replacement-pattern expansion. On top of them sit `Transform`, the alias check of `run`, run.ts's copy of `environmentStepUp`, and `Run`.

`shell.exit(1)` is modelled as a result value (`Exited`, `InvalidEnvironment`). An uncaught exception is modelled the same way (`Uncaught`, and `UndefinedParams` for the TypeError that destructuring `undefined` throws at scripts/run.ts:37): Node also ends with exit code 1 then. `ExitCode` gives the process exit code.

Edge cases of the code that the model keeps:

- The empty alias is falsy, so it skips the check in `run`. `transform("")` is `""`. `path.resolve(configPath, "")` is then the configuration directory itself, and loading it always fails (`RunEmptyAlias`).
- A configuration path that exists as a regular file skips `mkdir`. `readdirSync` then throws ENOTDIR, which nothing catches.
- A configuration path with a regular file among its ancestors is reported missing, so `mkdir -p` runs. `mkdir -p` creates nothing there, and `readdirSync` again throws ENOTDIR (`StepUpConfigUnderFile`).
- `mkdir -p` creates every missing ancestor of the configuration directory as well as the directory itself. The application path is the working directory, not the script's location, so `scripts/` may well be missing.
- run.ts's copy of `environmentStepUp` accepts `undefined` in its type but destructures it. That throws before any step (`UndefinedParams`). `run` itself always passes an object.
- `dotenv.config` never fails while parsing. Its only error is the read error (EISDIR for a directory, checked first, ENOTDIR below a regular file, ENOENT otherwise), so `Load` fails exactly when the profile path is not a regular file.

## Model

| member | source | states |
|---|---|---|
| RunScript.MatchWhole | scripts/run.ts:17-20 | an anchored alternation `^(a1\|...\|an)$` matches exactly the strings equal to an alternative, and its first group then captures the whole string |
| RunScript.Expand | scripts/run.ts:28 | a replacement pattern without `$` is inserted literally |
| RunScript.ExpandGroupSuffix | scripts/run.ts:28 | a pattern made of a literal prefix without `$` followed by `$1`, such as `.env.$1`, yields the prefix followed by the captured group |
| RunScript.Replace | scripts/run.ts:21-28 | `replace` with an anchored regex returns the input unchanged when it does not match and the expanded pattern when it does |
| RunScript.EnvRegexTest | scripts/run.ts:17 | `envRegex.test` holds exactly for the seven tokens, with nothing before or after them |
| RunScript.Transform | scripts/run.ts:19-29 | `dev`, `development` and `d` become `.env.development`; `prod`, `production` and `p` become `.env.production`; any other token becomes `.env.` followed by the token; an unmatched string comes back unchanged |
| RunScript.AliasAccepted | scripts/run.ts:107 | the check in `run` lets an alias through iff it is empty or one of the seven tokens |
| RunScript.TransformLocal | scripts/run.ts:28 | `local` maps to `.env.local` through the `$1` substitution |
| RunScript.TransformUnmatched | scripts/run.ts:19-29 | any string `envRegex` does not match comes back unchanged |
| RunScript.AliasAcceptedIff | scripts/run.ts:107-110 | a non-empty alias passes the check iff it is exactly one of the seven tokens; the empty alias passes |
| RunScript.AliasRejectedExamples | scripts/run.ts:107-110 | matching is case-sensitive and knows no other names: `Dev`, `staging` and `test` are rejected |
| RunScript.ProducedProfilesAllowed | scripts/run.ts:47-54 | `.env.local`, `.env.development` and `.env.production` are all in `validFiles`, and none of them is `.env.dev`, `.env.prod` or `.env.test` |
| RunScript.TransformAcceptedProfile | scripts/run.ts:17-29 | every accepted non-empty alias becomes one of `.env.local`, `.env.development`, `.env.production`, which are all in `validFiles`; `.env.dev`, `.env.prod` and `.env.test` are never produced |
| RunScript.ExitCode | scripts/run.ts:36-120 | the process exits with 0 exactly when the root file was created and with 1 after every `shell.exit(1)` and every uncaught exception |
| RunScript.RunTsStepUp | scripts/run.ts:36-37 | destructuring an undefined argument throws before any call, with exit code 1 and the disk unchanged; with an object the calls follow the materializer's plan, and a changed file means the root file was created |
| RunScript.RunSpec | scripts/run.ts:104-120 | `run` stops with an invalid-environment exit iff the alias check fails, then with no call and the disk unchanged; it never passes an undefined object; an accepted alias makes a prefix of the calls of the materializer's plan for its transformed profile |
| RunScript.RunRejects | scripts/run.ts:104-110 | an alias outside the tokens ends with exit code 1 before any file-system call, leaving the disk unchanged |
| RunScript.RunCopiesSelectedProfile | scripts/run.ts:104-117 | for an accepted alias, exit code 0 means `appPath/.env` now holds the bytes of `scripts/config/<transform(alias)>`, and exit code 1 means no file changed |
| RunScript.RunEmptyAlias | scripts/run.ts:104-117 | the empty alias passes the check but always ends with exit code 1 and no file changed |
| RunScript.EnvironmentStepUp | scripts/run.ts:36-102 | run.ts's copy fails before any call on an undefined argument and otherwise behaves as the materializer in environment.setup.ts |
| RunScript.Run | scripts/run.ts:104-120 | `run` performs the alias check, `transform` and the materializer with root `.env`, with the outcome, the new disk and the calls made all as `RunSpec` gives them |
| EnvironmentSetup.CheckList | scripts/environment.setup.ts:25-34 | `checkList` holds exactly the listed names not in the six-name allow-list, and it is empty iff every listed name is allowed |
| EnvironmentSetup.CheckListAppend | scripts/environment.setup.ts:34 | the filter keeps listing order: filtering a concatenation is the concatenation of the filtered parts |
| EnvironmentSetup.CheckListExamples | scripts/environment.setup.ts:25-35 | a listing of exactly the allow-list passes; the allow-list plus one unknown file reports that file alone |
| EnvironmentSetup.StepUp | scripts/environment.setup.ts:20-79 | the calls of a run are a prefix of its plan and all of it on success; an aborted run leaves the disk as the first step left it; a successful one reports the root path |
| EnvironmentSetup.AfterListing | scripts/environment.setup.ts:34-48 | after the listing, the run aborts on unexpected files iff the filter is non-empty, makes a further call iff it is empty, and an abort changes nothing more |
| EnvironmentSetup.AfterCheck | scripts/environment.setup.ts:50-79 | after the check, the run creates the root file iff the profile is a regular file and the root path can be created; the root file then holds the profile's bytes and the directories are kept; a failure changes nothing |
| EnvironmentSetup.StepUpDefaults | scripts/environment.setup.ts:12-15 | each member is defaulted on its own: an omitted `rootEnvironment` means `.env` and an omitted `environment` means `.env.local`, whatever the other member is |
| EnvironmentSetup.StepUpOrder | scripts/environment.setup.ts:20-79 | the calls are a prefix of existence check, (mkdir), listing, load, copy; a success makes all of them; an allow-list abort stops at the listing and a load abort stops at the load |
| EnvironmentSetup.StepUpGuards | scripts/environment.setup.ts:34-77 | the profile is read iff the allow-list check passed, and the copy is attempted iff the check passed and the load succeeded |
| EnvironmentSetup.StepUpUnexpectedFiles | scripts/environment.setup.ts:34-42 | the run aborts on unexpected files iff the configuration directory lists a name outside the allow-list |
| EnvironmentSetup.StepUpAbortKeepsFiles | scripts/environment.setup.ts:20-65 | an aborted run changes no file; the only possible change is the directories `mkdir -p` created |
| EnvironmentSetup.StepUpSuccess | scripts/environment.setup.ts:44-77 | a run succeeds iff the check passes, the profile is a regular file and the root path can be created (no directory, parent directories present, none of them a file); the root file then holds the profile's bytes, and no directory or other file differs from the state after the first step |
| EnvironmentSetup.StepUpFreshConfigDir | scripts/environment.setup.ts:20-65 | on a disk without the configuration directory and no file above it, the run creates it, finds nothing unexpected, and then fails at the load with no file changed |
| EnvironmentSetup.StepUpConfigUnderFile | scripts/environment.setup.ts:20-34 | when a regular file sits above the configuration directory, `mkdir -p` runs but creates nothing and the listing throws ENOTDIR: the run ends after three calls with the disk unchanged |
| EnvironmentSetup.StepUpKeepsWellFormed | scripts/environment.setup.ts:20-77 | a run keeps the disk a tree: no path is both a file and a directory, and every entry's ancestors are directories |
| EnvironmentSetup.EnvironmentStepUp | scripts/environment.setup.ts:12-80 | the imperative procedure on a `Disk` ends as `StepUp` says, leaves the disk as `StepUp` says, and logs exactly `StepUp`'s calls |
| EnvironmentSetup.EnsureConfigDir | scripts/environment.setup.ts:20-34 | the existence check, the conditional `mkdir -p` and the listing leave the disk and the log as the first step of `StepUp` says and return its listing |
| EnvironmentSetup.LoadAndCopy | scripts/environment.setup.ts:47-77 | the load and the copy end, change the disk and log calls as `AfterCheck` says |
| FileSystem.Ancestors | scripts/environment.setup.ts:22 | the proper ancestors of a path are exactly the prefixes that end just before a `/` |
| FileSystem.IsUnderTransitive | scripts/environment.setup.ts:22 | an ancestor of an ancestor is an ancestor |
| FileSystem.Join | scripts/environment.setup.ts:47-48 | `path.resolve` of a base and an empty segment is the base; a non-empty segment adds a separator and the segment |
| FileSystem.JoinUnder | scripts/environment.setup.ts:47-48 | `path.resolve` of a base and a non-empty relative segment lies strictly inside the base and ends with the segment |
| FileSystem.Exists | scripts/environment.setup.ts:20 | `existsSync` holds exactly when the path can be listed as a directory or read as a file |
| FileSystem.Mkdir | scripts/environment.setup.ts:20-23 | `mkdir -p` on a missing path with no file above it creates the path together with every missing ancestor, each with an empty listing, and nothing else; on an existing path, or below a regular file, it changes nothing; files and existing listings are kept |
| FileSystem.MkdirKeepsWellFormed | scripts/environment.setup.ts:22 | `mkdir -p` keeps the disk a tree |
| FileSystem.ReadDir | scripts/environment.setup.ts:34 | a listing succeeds exactly on a directory and returns its entries; a regular file, or a path below one, gives ENOTDIR |
| FileSystem.Load | scripts/environment.setup.ts:50-65 | the load succeeds exactly on a regular file; a directory gives EISDIR, a path below a regular file ENOTDIR and any other missing path ENOENT |
| FileSystem.Copy | scripts/environment.setup.ts:77 | a copy succeeds iff the source is a regular file and the destination can be created (no directory, every ancestor a directory); the destination then holds the source's bytes and no other file or directory changes |
| FileSystem.CopyKeepsWellFormed | scripts/environment.setup.ts:77 | a successful copy keeps the disk a tree |
| FileSystem.Disk.ExistsSync | scripts/environment.setup.ts:20 | reports whether anything exists at the path, changes nothing and logs the call |
| FileSystem.Disk.MkdirP | scripts/environment.setup.ts:22 | performs `Mkdir` in place and logs the call |
| FileSystem.Disk.ReaddirSync | scripts/environment.setup.ts:34 | returns `ReadDir` of the state, changes nothing and logs the call |
| FileSystem.Disk.LoadDotenv | scripts/environment.setup.ts:50-57 | returns `Load` of the state, changes nothing and logs the call |
| FileSystem.Disk.CopyFileSync | scripts/environment.setup.ts:77 | performs `Copy` in place, reports its error without changing anything (for a source that is a regular file, the only kind the procedure copies), and logs the call |

## Left out

- Parsing of the profile and the resulting change to `process.env`: `dotenv` is a library whose code is not part of this model. The load is modelled only by whether the file can be read.
- The `if (!env)` branch (scripts/run.ts:89-96, scripts/environment.setup.ts:67-74): the load result is always defined once its error has been handled, so the branch is dead. It is not modelled.
- Console output and its colours (chalk), and the text of every message.
- Commander's argument parsing (scripts/run.ts:8-15). `Run` takes the alias directly; when `-e` is absent Commander supplies `local`.
- `path.resolve` normalisation beyond dropping an empty segment: `..`, `.`, absolute segments and the `./` in `./scripts/config` are not modelled. Paths are joined with `/`.
- RunScript.Expand: recognises only `$1`; JavaScript's other replacement patterns (`$$`, `$&`, `` $` ``, `$'`, `$2` ...) are copied literally. None of the three patterns in `transform` contains one.
- FileSystem.Mkdir: does not add the created directories to their parents' listings. The procedure lists only the configuration directory, which `mkdir -p` creates empty. When a file sits above the path, shelljs reports the ENOTDIR failure on standard error and carries on; the model only keeps the disk unchanged, and the listing that follows fails with ENOTDIR.
- FileSystem.Copy: does not add a newly created destination to its parent directory's listing. `run` always passes `.env`, whose parent is the application directory, which the procedure never lists; the exported `environmentStepUp` accepts any `rootEnvironment`, and one such as `scripts/config/x` would be missing from the configuration directory's listing in the model.
- FileSystem.Copy: a source that exists but is no regular file is taken to fail before the destination is opened, so every failed copy leaves the disk unchanged. The procedure never reaches that case, because `Load` has already refused a directory.
- Errors the primitives can raise for reasons outside the disk state (permissions, I/O faults, a full disk) are not modelled.
- A directory's listing is taken as given: `WellFormed` does not tie it to the files and directories stored under that path, so the allow-list check and every property about it (`StepUpUnexpectedFiles`, `CheckPasses`) are stated about what `readdirSync` lists, not about the paths under the configuration directory. The order `fs.readdirSync` returns entries in is likewise part of the disk state rather than modelled.
- Concurrent runs racing on the root `.env` are not modelled.
- svelte.config.js is build configuration that calls foreign plugins, with no logic of its own. It is not part of this model.
