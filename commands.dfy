/** The external steps of a macsign run and the exact command lines it builds:
    artifact classification, the signing invocations, the archive name and the
    archive, notarization, stapling and verification invocations. */
module Commands {
  import Decimal

  /** One effect on the outside world, as the run issues it. */
  datatype Action =
    | Exec(exe: string, args: seq<string>)  // a subprocess, run to completion
    | Remove(path: string)                   // os.Remove
    | Rename(from: string, to: string)       // os.Rename
    | Stat(path: string)                     // os.Stat

  /** The three configuration keys the run reads:
      keychain.profile, keychain.identity.application, keychain.identity.installer. */
  datatype Config = Config(profile: string, applicationIdentity: string, installerIdentity: string)

  const PkgSuffix := ".pkg"
  const SignedPrefix := "__Signed_"
  const ZipPrefix := "__MacSign_"
  const ZipSuffix := ".zip"
  /** The argument is passed verbatim, the double quotes included (no shell is involved). */
  const NotarizedRequirement := "--test-requirement=\"=notarized\""

  /** Go's strings.HasSuffix: a case-sensitive comparison of the last characters. */
  predicate HasSuffix(s: string, suffix: string) {
    |suffix| <= |s| && s[|s| - |suffix|..] == suffix
  }

  /** An artifact is an installer package exactly when its path ends in ".pkg". */
  predicate IsInstaller(path: string) {
    HasSuffix(path, PkgSuffix)
  }

  /** Where productsign writes the signed package: the prefix goes in front of the
      whole path string, directories included, not in front of the base name. */
  function SignedTempPath(path: string): (r: string)
    ensures r != path
    ensures |r| == |SignedPrefix| + |path| && r[..|SignedPrefix|] == SignedPrefix && r[|SignedPrefix|..] == path
  {
    SignedPrefix + path
  }

  /** The signing invocation for one artifact. */
  function SignCommand(cfg: Config, path: string): (r: Action)
    ensures r.Exec?
    ensures r.exe == "productsign" <==> IsInstaller(path)
    ensures r.exe == "codesign" <==> !IsInstaller(path)
    ensures path in r.args
    // productsign must be given an output path different from its input
    ensures IsInstaller(path) ==> |r.args| == 5 && r.args[3] == path && r.args[4] != path
    // the identity passed is the one configured for the kind of artifact
    ensures IsInstaller(path) ==> r.args[2] == cfg.installerIdentity && r.args[4] == SignedTempPath(path)
    ensures !IsInstaller(path) ==> |r.args| == 5 && r.args[1] == cfg.applicationIdentity && r.args[4] == path
  {
    if IsInstaller(path) then
      Exec("productsign", ["--timestamp", "--sign", cfg.installerIdentity, path, SignedTempPath(path)])
    else
      Exec("codesign", ["-s", cfg.applicationIdentity, "-f", "--timestamp", path])
  }

  /** `__MacSign_<ts>.zip`, with the Unix timestamp written by `%d`. */
  function ZipName(ts: int): string {
    ZipPrefix + Decimal.IntToString(ts) + ZipSuffix
  }

  function ZipCommand(zipName: string, paths: seq<string>): Action {
    Exec("zip", ["-r", zipName] + paths)
  }

  function NotarizeCommand(profile: string, zipName: string): Action {
    Exec("xcrun", ["notarytool", "submit", "--keychain-profile", profile, "--wait", zipName])
  }

  function StapleCommand(path: string): Action {
    Exec("xcrun", ["stapler", "staple", path])
  }

  function VerifyCommand(path: string): Action {
    Exec("codesign", [NotarizedRequirement, "--verify", path])
  }

  /** The inverse of `ZipName`: the timestamp an archive name was made from. */
  function ParseZipName(name: string): Decimal.Option<int> {
    if |ZipPrefix| + |ZipSuffix| <= |name| && name[..|ZipPrefix|] == ZipPrefix && HasSuffix(name, ZipSuffix) then
      Decimal.ParseInt(name[|ZipPrefix|..|name| - |ZipSuffix|])
    else
      Decimal.None
  }

  /** The classification, stated without slicing: a path is an installer
      exactly when it is some string followed by ".pkg". */
  lemma InstallerIffPkgStem(path: string)
    ensures IsInstaller(path) <==> exists stem :: path == stem + PkgSuffix
  {
    if IsInstaller(path) {
      var stem := path[..|path| - |PkgSuffix|];
      assert path == stem + PkgSuffix;
    }
    if exists stem :: path == stem + PkgSuffix {
      var stem :| path == stem + PkgSuffix;
      assert path[|path| - |PkgSuffix|..] == PkgSuffix;
    }
  }

  /** The suffix test does not fold case. */
  lemma ClassificationIsCaseSensitive()
    ensures IsInstaller("Installer.pkg")
    ensures !IsInstaller("Installer.PKG")
  {
    assert "Installer.pkg"[9..] == PkgSuffix;
    assert "Installer.PKG"[9..][1] != PkgSuffix[1];
  }

  /** A package in a sub-directory is signed to a temporary path whose prefix
      stands before the directory, not before the file name. */
  lemma NestedInstallerSignCommand(cfg: Config)
    ensures SignCommand(cfg, "dist/Installer.pkg") ==
      Exec("productsign", ["--timestamp", "--sign", cfg.installerIdentity, "dist/Installer.pkg", "__Signed_dist/Installer.pkg"])
    ensures SignedTempPath("dist/Installer.pkg") != "dist/__Signed_Installer.pkg"
  {
    var path := "dist/Installer.pkg";
    assert path[|path| - |PkgSuffix|..] == PkgSuffix;
    assert SignedTempPath(path) == "__Signed_dist/Installer.pkg";
    assert SignedTempPath(path)[0] != "dist/__Signed_Installer.pkg"[0];
  }

  /** The timestamp can be read back from the archive name. */
  lemma ZipNameRoundTrip(ts: int)
    ensures ParseZipName(ZipName(ts)) == Decimal.Some(ts)
  {
    var digits := Decimal.IntToString(ts);
    var name := ZipName(ts);
    assert name[..|ZipPrefix|] == ZipPrefix;
    assert name[|name| - |ZipSuffix|..] == ZipSuffix;
    assert name[|ZipPrefix|..|name| - |ZipSuffix|] == digits;
    Decimal.ParseIntToString(ts);
  }

  /** Runs started at different seconds use different archive names. */
  lemma ZipNameInjective(ts1: int, ts2: int)
    requires ZipName(ts1) == ZipName(ts2)
    ensures ts1 == ts2
  {
    ZipNameRoundTrip(ts1);
    ZipNameRoundTrip(ts2);
  }

  /** The archive is never classified as an installer package. */
  lemma ZipNameIsNotInstaller(ts: int)
    ensures !IsInstaller(ZipName(ts))
  {
    var name := ZipName(ts);
    assert name[|name| - 1] == 'p';
  }
}
