# macsign, modelled in Dafny

macsign signs, notarizes and staples macOS build artifacts. Its `main` runs a
strictly sequential, fail-fast pipeline over the paths given on the command
line:

    Validate -> Sign each path -> Zip -> Notarize -> Remove zip -> Staple and Verify each path

Every external step is a subprocess (`codesign`, `productsign`, `zip`,
`xcrun notarytool`, `xcrun stapler`) or a file-system call (`os.Stat`,
`os.Remove`, `os.Rename`). The first step that fails ends the process with
exit status 1. When every step succeeds the process exits 0. Before any step,
Go's flag parser may end the process: `-h` or `-help` exits 0 and any other
leading flag exits 2.

The model describes one run as the sequence of actions it issues (its
*trace*) together with its exit status:

- `Commands.Action` is one external step: `Exec(exe, args)`, `Remove(path)`,
  `Rename(from, to)` or `Stat(path)`.
- `Pipeline.World` is an oracle that gives each action's outcome.
  - `stat` is three-valued: `Found`, `NotExist` or `OtherError`.
  - `succeeds` says whether any other action succeeds.
- `Commands.Config` holds the three configuration values the run reads.
- `now` is the Unix time the run reads from the clock.

The model has five modules:

- `decimal.dfy` (module `Decimal`) writes an integer the way Go's `%d` does. It
  also has the parser that undoes this.
- `commands.dfy` (module `Commands`) has:
  - artifact classification (`IsInstaller`);
  - the exact argument vector of every subprocess;
  - the installer's temporary path;
  - the archive name `__MacSign_<ts>.zip`.
- `flags.dfy` (module `Flags`) is what `flag.Parse` does with the command
  line when no flags are defined: the positional arguments, a help request or
  a flag error. Only the first argument matters, since parsing stops at the
  first argument that is not a flag, and a leading `--` is dropped.
- `pipeline.dfy` (module `Pipeline`) has four parts:
  - `Plan` is every action a run issues when nothing fails. It does not
    depend on the world, because `main` only branches on failures.
  - `FailFast` issues a plan in order and stops at the first failure.
  - `Expected` is what a run over the positional arguments does. An empty keychain profile or an
    empty argument list exits 1 before any action. Otherwise `Plan` runs
    fail-fast.
  - `Invocation` is what `main` does with the raw command line: the profile
    check, then the flag parse (exit 0 or 2 with no action), then `Expected`
    over the positional arguments.

  `Run` is `main` itself, written as imperative code. Each loop of `main` is a
  method with a loop (`ValidatePaths`, `SignPaths` with `SignOne`,
  `StapleAndVerify`), and the zip/notarize/cleanup sequence is `Notarize`.
  Each of these methods is proved equal to `FailFast` over its own part of the
  plan. `Run` is proved equal to `Invocation(cfg, argv, ZipName(now), w)`.
- `properties.dfy` (module `Properties`) proves what the source promises about
  `Expected`, for every configuration, argument list, archive name and world:
  - the exit status is 0 exactly when every step succeeds;
  - a missing path stops the run before any signing;
  - a signing failure stops the run on that path;
  - which action must directly precede each effect, and that it succeeded;
  - whole runs over one application bundle and over one installer package,
    written out;
  - the exit status of an invocation, and that a command line without a
    leading flag runs exactly as `Expected` over its arguments.

`Expected` and most lemmas take the archive name as a parameter. `Run` builds
the name once as `ZipName(now)`. The lemmas that need the name not to end in
`.pkg` are stated for `ZipName(now)`; `Commands.ZipNameIsNotInstaller` supplies
that fact.

The plan has no world argument, so a run never detects earlier work: on
artifacts that are already signed, notarized and stapled, it issues every step
again.

Details of main.go the model keeps:

- Validation aborts only when `os.IsNotExist` holds of the `Stat` error.
  Any other `Stat` error is ignored and the run goes on (main.go:68).
- The temporary output of `productsign` is `"__Signed_" + path`. The prefix
  goes in front of the whole path string, directories included, not in front
  of the file name (main.go:85, 109).
- The verify step passes `--test-requirement="=notarized"` with the double
  quotes as part of the argument, since no shell is involved (main.go:151).
- An empty `keychain.profile` is fatal (`log.Fatal`, exit status 1) before the
  arguments are looked at (main.go:51-53).

## Model

| member | source | states |
|---|---|---|
| Decimal.NatToString | main.go:117 | the digits written for a timestamp are non-empty decimal digits, with a leading zero only for 0 |
| Decimal.ParseIntToString | main.go:117 | reading back the `%d` rendering of any integer gives that integer, so rendering is injective |
| Commands.IsInstaller | main.go:80 | the `.pkg` suffix test, used again at main.go:103; `Commands.InstallerIffPkgStem` and `Commands.ClassificationIsCaseSensitive` pin it |
| Commands.InstallerIffPkgStem | main.go:80 | a path is classified as an installer exactly when it is some string followed by `.pkg` |
| Commands.ClassificationIsCaseSensitive | main.go:80 | `Installer.pkg` is an installer and `Installer.PKG` is not: the suffix test does not fold case |
| Commands.SignedTempPath | main.go:85 | the temporary output path of productsign differs from its input path; it is the prefix `__Signed_` followed by the whole path, the name renamed back at main.go:109 |
| Commands.SignCommand | main.go:76-91 | installers get `productsign`, everything else `codesign` (both directions); the path is an argument; productsign gets 5 arguments: the installer identity at position 2, the input at position 3, and the temporary path (different from the input) at position 4; codesign gets 5 arguments, the application identity at position 1 and the path at position 4 |
| Commands.NestedInstallerSignCommand | main.go:83-85 | `dist/Installer.pkg` is signed to `__Signed_dist/Installer.pkg`, not to `dist/__Signed_Installer.pkg` |
| Decimal.IntToString | main.go:117 | `%d`: non-empty, with a leading minus sign exactly for negative numbers; `Decimal.ParseIntToString` pins its value |
| Commands.ZipName | main.go:117 | `__MacSign_<ts>.zip`; `Commands.ZipNameRoundTrip` pins it |
| Commands.ZipCommand | main.go:118-120 | `zip -r <name> <paths>`; `Properties.ZipFollowsSigning` states it archives the paths as given, in order |
| Commands.NotarizeCommand | main.go:128 | `xcrun notarytool submit --keychain-profile <profile> --wait <name>`; `Properties.AppBundlePlan` and `Properties.InstallerPlan` write it out |
| Commands.StapleCommand | main.go:144 | `xcrun stapler staple <path>`; `Properties.AppBundlePlan` and `Properties.InstallerPlan` write it out |
| Commands.VerifyCommand | main.go:151 | `codesign --test-requirement="=notarized" --verify <path>`; `Properties.AppBundlePlan` and `Properties.InstallerPlan` write it out |
| Commands.ZipNameRoundTrip | main.go:117 | the timestamp can be read back from the archive name `__MacSign_<ts>.zip` |
| Commands.ZipNameInjective | main.go:117 | runs started at different seconds use different archive names |
| Commands.ZipNameIsNotInstaller | main.go:117 | the archive name is never classified as an installer package |
| Flags.NameBeforeValue | main.go:56 | the flag name of `name=value` is the longest prefix without '=' |
| Flags.ParseFlags | main.go:56 | the arguments stay positional exactly when the first one is not a flag or is `--`; then they are kept, or kept without the `--` |
| Flags.PlainArgumentsPassThrough | main.go:56 | a command line whose first argument is not a flag is kept whole, later flags included |
| Flags.ShortHelpFlag | main.go:56 | `-h` first is a help request |
| Flags.LongHelpFlag | main.go:56 | `--help` first is a help request |
| Flags.HelpFlagWithValue | main.go:56 | `-help=false` first is a help request: the value is cut off before the name is looked up |
| Flags.UndefinedFlag | main.go:56 | `-v` first is a flag error |
| Flags.DoubleDashEndsFlags | main.go:56 | a leading `--` is dropped and the rest is positional |
| Pipeline.Succeeded | main.go:68-152 | which outcome lets the run go on: a stat goes on unless the path does not exist (main.go:68), any other action unless it returned an error; `Properties.StatsSucceed` and `Properties.ExitZeroIff` pin it |
| Pipeline.SignActions | main.go:76-113 | a signing step's actions; `Pipeline.SignOne`, `Properties.SignActionsSucceed` and `Properties.InstallerSignActions` pin them |
| Pipeline.Plan | main.go:66-156 | every action of a run in which nothing fails; `Properties.PlanGuards`, `Properties.ZipFollowsSigning` and the order lemmas pin it |
| Pipeline.FailFast | main.go:66-156 | a run over a plan exits 0 or 1 and no other status |
| Pipeline.Expected | main.go:50-157 | a run over the positional arguments exits 0 or 1 |
| Pipeline.Invocation | main.go:50-157 | a run over the raw command line exits 0, 1 or 2 |
| Pipeline.FailFastPrefix | main.go:66-156 | the trace is a prefix of the plan |
| Pipeline.FailFastExitZero | main.go:66-156 | exit 0 exactly when every planned action succeeds, and then the whole plan was issued |
| Pipeline.FailFastLast | main.go:66-156 | on exit 1 the last action issued failed and all before it succeeded |
| Pipeline.FailFastIssuesPlanned | main.go:66-156 | a run issues only planned actions |
| Pipeline.FailFastThen | main.go:66-156 | over consecutive stages, the later stage runs only when the earlier one succeeded throughout, and its actions follow the earlier stage's |
| Pipeline.ValidatePaths | main.go:66-72 | the validation loop stats the paths in order and stops at the first path that does not exist, as `FailFast` over the stats |
| Pipeline.SignOne | main.go:76-113 | one signing step: sign; for an installer also remove the original and rename the signed copy over it; stop at the first failure |
| Pipeline.SignPaths | main.go:75-114 | the signing loop is `FailFast` over every path's signing steps in order |
| Pipeline.Notarize | main.go:117-139 | zip, submit and wait, remove the archive, stopping at the first failure |
| Pipeline.StapleAndVerify | main.go:142-156 | the final loop staples then verifies each path in order, stopping at the first failure |
| Pipeline.Run | main.go:50-157 | `main`'s trace and exit status are exactly `Invocation` over the raw command line, with the archive name built from the clock |
| Properties.StatsSucceed | main.go:66-72 | validation passes exactly when no path is reported as not existing |
| Properties.SignActionsSucceed | main.go:95-112 | one path's signing steps all succeed exactly when the signing tool and, for an installer, the removal and the rename succeed |
| Properties.SignAllSucceed | main.go:75-114 | the signing stage succeeds throughout exactly when every path's signing succeeds |
| Properties.FinalAllSucceed | main.go:142-156 | the final stage succeeds throughout exactly when every path is stapled and verified |
| Properties.PlanGuards | main.go:75-156 | in the plan: an installer removal follows its productsign, a rename follows the removal of its target, the zip sits right after signing and archives the paths, notarization follows the zip, archive removal follows notarization, a verify follows the stapling of the same path |
| Properties.TraceFollowsPlan | main.go:50-156 | a run issues a prefix of its plan, nothing when the profile or the argument list is empty, and every action except the last succeeded |
| Properties.ExitZeroIff | main.go:50-157 | exit 0 exactly when profile and paths are non-empty and every stat, signing step, the zip, the notarization, the archive removal and every staple and verify succeed; then the whole plan was issued; an empty profile or path list exits 1 with no action |
| Properties.RunStopsAtFailure | main.go:95-155 | any failed action is the last action of the run and makes it exit 1; a run that exits 1 after issuing actions ends with a failed one |
| Properties.MissingPathAborts | main.go:66-72 | with a missing path the run exits 1 having issued only stats of the paths, in order: no exec, removal or rename |
| Properties.SignStageHalts | main.go:95-112 | within the signing stage, a failure on path k ends it after path k's steps up to the failing one |
| Properties.SignFailureHalts | main.go:75-114 | when path k is the first whose signing fails, the trace is the stats, the signing of paths before k and path k's steps up to the failure; no zip or xcrun; a failed productsign or codesign is the last action |
| Properties.SignedRunContinues | main.go:66-120 | once every path passed validation and signing, the run goes on with the archive stage |
| Properties.ArchiveHalts | main.go:120-132 | a failing zip is the only action of the archive stage; a failing notarization follows the zip and ends it |
| Properties.ArchiveStageFailure | main.go:117-132 | after full signing, a failing zip ends the run (no notarization, no removal); a failing notarization ends it and leaves the archive in place |
| Properties.RemoveFollowsProductsign | main.go:95-107 | an installer original is removed only directly after productsign succeeded on it |
| Properties.RenameFollowsRemove | main.go:104-112 | the signed copy is renamed over the original only directly after the original's removal succeeded |
| Properties.ZipFollowsSigning | main.go:66-124 | the zip comes after exactly the stats and the signing of every path, all successful, and archives the paths as given, in order |
| Properties.NotarizeFollowsZip | main.go:120-132 | notarization is submitted only directly after the zip succeeded |
| Properties.ZipRemovalFollowsNotarize | main.go:128-139 | the archive is removed only directly after notarization succeeded |
| Properties.VerifyFollowsStaple | main.go:144-155 | a path's notarization is verified only directly after stapling it succeeded |
| Properties.ArchiveRemovedBeforeStapling | main.go:136-144 | the final stage starts right after the archive was removed with success |
| Properties.StapleOrder | main.go:142-148 | the i-th path is stapled at offset 2i of the final stage |
| Properties.StapleAfterVerify | main.go:142-156 | past the first path, stapling comes right after the previous path was verified with success |
| Properties.VerifyOrder | main.go:144-155 | the i-th path is verified right after its stapling, and only once that stapling succeeded |
| Properties.NothingFails | main.go:50-157 | when nothing fails the run issues its whole plan and exits 0 |
| Properties.AppBundlePlan | main.go:66-156 | the plan over `App.app`, written out argument by argument |
| Properties.AppBundleRun | main.go:66-157 | a successful run over `App.app` signs it in place, zips, notarizes with `--wait`, removes the archive, staples, verifies and exits 0 |
| Properties.InstallerSignActions | main.go:80-112 | the signing steps for `Installer.pkg`: productsign to `__Signed_Installer.pkg`, remove, rename back |
| Properties.InstallerPlan | main.go:66-156 | the plan over `Installer.pkg`, written out argument by argument |
| Properties.InstallerRun | main.go:66-157 | a successful run over `Installer.pkg` and its exact nine actions, ending with exit 0 |
| Properties.InstallerSignFailure | main.go:95-99 | when productsign fails on `Installer.pkg`, the run exits 1 right after it: the original is never removed and no archive is made |
| Properties.InvocationStatus | main.go:50-157 | exit 2 exactly on a flag error; exit 0 exactly on a help request or a run over non-empty arguments in which every planned step succeeds; a help request or a flag error issues no action |
| Properties.InvocationOfPlainArguments | main.go:56-61 | without a leading flag or `--` an invocation is the run over its arguments as given |
| Properties.LeadingFlagDoesNothing | main.go:56 | `macsign -h App.app` exits 0 and `macsign -v App.app` exits 2, both with no action |

## Left out

- Reading `.macsign.toml` through viper (main.go:16-24) is not modelled. The
  three configuration values are inputs, so the exit 1 on a failing
  configuration read is not part of `Run`.
- The template-writing block (main.go:26-47) cannot be reached, because
  `os.Exit(1)` on main.go:24 runs first. It is not modelled.
- Logging (`log.Info`, `log.Error`, `log.Fatal`) is presentation only.
  `log.Fatal` on main.go:52 is modelled as exit 1.
- `flag.Parse` (main.go:56) is modelled for the first argument only, which is
  all it looks at when no flags are defined. Its usage and error messages are
  not modelled.
- Running the subprocesses is not modelled, and neither is their captured
  output. Only success or failure is modelled, through the `World` oracle.
- The oracle answers each action the same way every time; its answer does not
  depend on the actions issued before. Every planned action names its own
  path, so with distinct arguments no action is planned twice and a fixed
  answer loses nothing. With a repeated argument (`macsign a.app a.app`) the
  repeated signing, removal, rename, staple and verify actions get the answer
  of their first issue. The model therefore has no run in which only the
  second signing of a path fails, which main.go:95-98 allows.
- The file system is not modelled. Consequently, the model cannot state that
  no `__Signed_*` file is left behind after a successful installer signing.
- The clock is read once, as the parameter `now` of `Pipeline.Run`. The source
  reads it with `time.Now().Unix()`, an `int64`; the model does not bound `now`.
- Concurrent runs and a process killed between `Remove` and `Rename` are
  outside the sequential model.
