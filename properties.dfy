/** What a macsign run guarantees, stated over the actions it issues and its
    exit status, for every configuration, argument list, timestamp and world. */
module Properties {
  import opened Commands
  import opened Pipeline
  import opened Flags

  /** Signing one artifact went through: the signing tool, and for an installer
      also the removal of the original and the rename of the signed copy. */
  predicate SignSucceeds(cfg: Config, w: World, path: string) {
    && w.succeeds(SignCommand(cfg, path))
    && (IsInstaller(path) ==> w.succeeds(Remove(path)) && w.succeeds(Rename(SignedTempPath(path), path)))
  }

  predicate FinalizeSucceeds(w: World, path: string) {
    w.succeeds(StapleCommand(path)) && w.succeeds(VerifyCommand(path))
  }

  // ---------------------------------------------------------------------------
  // The plan, stage by stage
  // ---------------------------------------------------------------------------

  lemma {:induction false} StatsAt(paths: seq<string>)
    ensures |Stats(paths)| == |paths|
    ensures forall i :: 0 <= i < |paths| ==> Stats(paths)[i] == Stat(paths[i])
  {
    if paths != [] {
      StatsAt(paths[1..]);
    }
  }

  lemma {:induction false} StatsSucceed(paths: seq<string>, w: World)
    ensures AllSucceed(w, Stats(paths)) <==> forall p :: p in paths ==> w.stat(p) != NotExist
  {
    StatsAt(paths);
    var s := Stats(paths);
    if forall p :: p in paths ==> w.stat(p) != NotExist {
      forall a | a in s ensures Succeeded(w, a) {
        var i :| 0 <= i < |s| && s[i] == a;
        assert paths[i] in paths;
      }
    }
    if AllSucceed(w, s) {
      forall p | p in paths ensures w.stat(p) != NotExist {
        var i :| 0 <= i < |paths| && paths[i] == p;
        assert s[i] in s;
      }
    }
  }

  lemma {:induction false} SignAllSplit(cfg: Config, xs: seq<string>, ys: seq<string>)
    ensures SignAll(cfg, xs + ys) == SignAll(cfg, xs) + SignAll(cfg, ys)
  {
    if xs == [] {
      assert xs + ys == ys;
    } else {
      assert (xs + ys)[1..] == xs[1..] + ys;
      SignAllSplit(cfg, xs[1..], ys);
    }
  }

  lemma SignActionsSucceed(cfg: Config, w: World, path: string)
    ensures AllSucceed(w, SignActions(cfg, path)) <==> SignSucceeds(cfg, w, path)
  {
    var sign := SignCommand(cfg, path);
    assert Succeeded(w, sign) == w.succeeds(sign);
    if IsInstaller(path) {
      var s := SignActions(cfg, path);
      assert s == [sign, Remove(path), Rename(SignedTempPath(path), path)];
      assert AllSucceed(w, s) <==> Succeeded(w, s[0]) && Succeeded(w, s[1]) && Succeeded(w, s[2]);
    } else {
      assert SignActions(cfg, path) == [sign];
    }
  }

  lemma {:induction false} SignAllSucceed(cfg: Config, paths: seq<string>, w: World)
    ensures AllSucceed(w, SignAll(cfg, paths)) <==> forall p :: p in paths ==> SignSucceeds(cfg, w, p)
  {
    if paths != [] {
      SignAllSucceed(cfg, paths[1..], w);
      SignActionsSucceed(cfg, w, paths[0]);
      assert paths == [paths[0]] + paths[1..];
      assert SignAll(cfg, paths) == SignActions(cfg, paths[0]) + SignAll(cfg, paths[1..]);
    }
  }

  /** The signing stage issues only the two signing tools, removals of installer
      packages, and renames of signed packages over their originals, each
      removal and rename directly after the step that guards it. */
  lemma {:induction false} SignAllAt(cfg: Config, paths: seq<string>, j: int)
    requires 0 <= j < |SignAll(cfg, paths)|
    ensures var s := SignAll(cfg, paths); var a := s[j];
      && !a.Stat?
      && (a.Exec? ==> (a.exe == "codesign" && |a.args| == 5) || a.exe == "productsign")
      && (a.Remove? ==> IsInstaller(a.path) && j > 0 && s[j - 1] == SignCommand(cfg, a.path))
      && (a.Rename? ==> a.from == SignedTempPath(a.to) && j > 0 && s[j - 1] == Remove(a.to))
  {
    var head := SignActions(cfg, paths[0]);
    var tail := SignAll(cfg, paths[1..]);
    assert SignAll(cfg, paths) == head + tail;
    if j >= |head| {
      SignAllAt(cfg, paths[1..], j - |head|);
    }
  }

  lemma {:induction false} FinalAllAt(paths: seq<string>, j: int)
    requires 0 <= j < |FinalAll(paths)|
    ensures var s := FinalAll(paths); var a := s[j];
      && a.Exec? && |a.args| == 3
      && ((a.exe == "xcrun" && a.args[0] == "stapler") || a.exe == "codesign")
      && (a.exe == "codesign" ==> a == VerifyCommand(a.args[2]) && j > 0 && s[j - 1] == StapleCommand(a.args[2]))
  {
    var tail := FinalAll(paths[1..]);
    assert FinalAll(paths) == [StapleCommand(paths[0]), VerifyCommand(paths[0])] + tail;
    if j >= 2 {
      FinalAllAt(paths[1..], j - 2);
    }
  }

  lemma {:induction false} FinalAllIndex(paths: seq<string>, i: int)
    requires 0 <= i < |paths|
    ensures 2 * i + 1 < |FinalAll(paths)|
    ensures FinalAll(paths)[2 * i] == StapleCommand(paths[i])
    ensures FinalAll(paths)[2 * i + 1] == VerifyCommand(paths[i])
  {
    var tail := FinalAll(paths[1..]);
    assert FinalAll(paths) == [StapleCommand(paths[0]), VerifyCommand(paths[0])] + tail;
    if i > 0 {
      FinalAllIndex(paths[1..], i - 1);
    }
  }

  lemma {:induction false} FinalAllSucceed(paths: seq<string>, w: World)
    ensures AllSucceed(w, FinalAll(paths)) <==> forall p :: p in paths ==> FinalizeSucceeds(w, p)
  {
    if paths != [] {
      var path, tail := paths[0], paths[1..];
      FinalAllSucceed(tail, w);
      var head := [StapleCommand(path), VerifyCommand(path)];
      assert FinalAll(paths) == head + FinalAll(tail);
      AllSucceedConcat(w, head, FinalAll(tail));
      assert AllSucceed(w, head) <==> FinalizeSucceeds(w, path) by {
        assert Succeeded(w, head[0]) == w.succeeds(StapleCommand(path));
        assert Succeeded(w, head[1]) == w.succeeds(VerifyCommand(path));
        assert forall a :: a in head <==> a == head[0] || a == head[1];
      }
      assert forall p :: p in paths <==> p == path || p in tail by {
        assert paths == [path] + tail;
      }
    }
  }

  /** Where each kind of action sits in the plan, and the action right before it.
      The removal guards need the archive name not to be an installer path, which
      holds of every name the run builds (`ZipNameIsNotInstaller`). */
  lemma PlanGuards(cfg: Config, paths: seq<string>, zipName: string, j: int)
    requires 0 <= j < |Plan(cfg, paths, zipName)|
    ensures var plan := Plan(cfg, paths, zipName); var a := plan[j];
      && (a.Remove? && IsInstaller(a.path) && !IsInstaller(zipName) ==>
            j > 0 && plan[j - 1] == SignCommand(cfg, a.path))
      && (a.Rename? ==> a.from == SignedTempPath(a.to) && j > 0 && plan[j - 1] == Remove(a.to))
      && (a.Exec? && a.exe == "zip" ==>
            j == |paths| + |SignAll(cfg, paths)| && a == ZipCommand(zipName, paths))
      && (a == NotarizeCommand(cfg.profile, zipName) ==> j > 0 && plan[j - 1] == ZipCommand(zipName, paths))
      && (a == Remove(zipName) && !IsInstaller(zipName) ==>
            j > 0 && plan[j - 1] == NotarizeCommand(cfg.profile, zipName))
      && (a.Exec? && a.exe == "codesign" && |a.args| == 3 ==>
            a == VerifyCommand(a.args[2]) && j > 0 && plan[j - 1] == StapleCommand(a.args[2]))
  {
    var plan := Plan(cfg, paths, zipName);
    var stats, sign, notarization, final :=
      Stats(paths), SignAll(cfg, paths), Notarization(cfg, zipName, paths), FinalAll(paths);
    StatsAt(paths);
    var s, g := |stats|, |sign|;
    if j < s {
      assert plan[j] == stats[j];
    } else if j < s + g {
      assert plan[j] == sign[j - s];
      SignAllAt(cfg, paths, j - s);
      if j > s {
        assert plan[j - 1] == sign[j - s - 1];
      }
    } else if j < s + g + 3 {
      assert plan[j] == notarization[j - s - g];
      if j > s + g {
        assert plan[j - 1] == notarization[j - s - g - 1];
      }
    } else {
      assert plan[j] == final[j - s - g - 3];
      FinalAllAt(paths, j - s - g - 3);
      if j > s + g + 3 {
        assert plan[j - 1] == final[j - s - g - 4];
      }
    }
  }

  // ---------------------------------------------------------------------------
  // The run
  // ---------------------------------------------------------------------------

  /** A run issues a prefix of the plan, and every action it issued except the
      last one succeeded. */
  lemma TraceFollowsPlan(cfg: Config, paths: seq<string>, zipName: string, w: World)
    ensures var r := Expected(cfg, paths, zipName, w); var plan := Plan(cfg, paths, zipName);
      && (r.trace != [] ==> cfg.profile != "" && paths != [])
      && |r.trace| <= |plan|
      && (forall j :: 0 <= j < |r.trace| ==> r.trace[j] == plan[j])
      && (forall j :: 0 <= j < |r.trace| - 1 ==> Succeeded(w, r.trace[j]))
  {
    var t := Expected(cfg, paths, zipName, w).trace;
    if cfg.profile != "" && paths != [] {
      FailFastPrefix(Plan(cfg, paths, zipName), w);
    }
    forall j | 0 <= j < |t| - 1 ensures Succeeded(w, t[j]) {
      TraceAt(cfg, paths, zipName, w, j);
    }
  }

  /** The j-th action of a run is the j-th planned one, and it succeeded when
      the run went on past it. */
  lemma {:induction false} TraceAt(cfg: Config, paths: seq<string>, zipName: string, w: World, j: int)
    requires 0 <= j < |Expected(cfg, paths, zipName, w).trace|
    ensures var t := Expected(cfg, paths, zipName, w).trace; var plan := Plan(cfg, paths, zipName);
      j < |plan| && t[j] == plan[j] && (j + 1 < |t| ==> Succeeded(w, plan[j]))
  {
    var plan := Plan(cfg, paths, zipName);
    assert Expected(cfg, paths, zipName, w) == FailFast(plan, w);
    FailFastAt(plan, w, j);
  }

  /** Two consecutive actions of a run are the planned ones, and the first succeeded. */
  lemma {:induction false} TracePair(cfg: Config, paths: seq<string>, zipName: string, w: World, j: int)
    requires 0 < j < |Expected(cfg, paths, zipName, w).trace|
    ensures var t := Expected(cfg, paths, zipName, w).trace; var plan := Plan(cfg, paths, zipName);
      j < |plan| && t[j - 1] == plan[j - 1] && Succeeded(w, plan[j - 1]) && t[j] == plan[j]
  {
    TraceAt(cfg, paths, zipName, w, j - 1);
    TraceAt(cfg, paths, zipName, w, j);
  }

  /** The exit status is 0 exactly when the keychain profile and the argument list
      are non-empty and every step of every stage succeeds; an empty profile or
      argument list exits 1 before any action. */
  lemma ExitZeroIff(cfg: Config, paths: seq<string>, zipName: string, w: World)
    ensures var r := Expected(cfg, paths, zipName, w);
      r.code == 0 <==>
        && cfg.profile != "" && paths != []
        && (forall p :: p in paths ==> w.stat(p) != NotExist)
        && (forall p :: p in paths ==> SignSucceeds(cfg, w, p))
        && w.succeeds(ZipCommand(zipName, paths))
        && w.succeeds(NotarizeCommand(cfg.profile, zipName))
        && w.succeeds(Remove(zipName))
        && (forall p :: p in paths ==> FinalizeSucceeds(w, p))
    ensures var r := Expected(cfg, paths, zipName, w);
      r.code != 0 ==> r.code == 1
    ensures var r := Expected(cfg, paths, zipName, w);
      r.code == 0 ==> r.trace == Plan(cfg, paths, zipName)
    ensures cfg.profile == "" || paths == [] ==> Expected(cfg, paths, zipName, w) == Outcome([], 1)
  {
    var plan := Plan(cfg, paths, zipName);
    FailFastExitZero(plan, w);
    StatsSucceed(paths, w);
    SignAllSucceed(cfg, paths, w);
    FinalAllSucceed(paths, w);
    var n := Notarization(cfg, zipName, paths);
    assert AllSucceed(w, n) <==> Succeeded(w, n[0]) && Succeeded(w, n[1]) && Succeeded(w, n[2]);
    AllSucceedConcat(w, n, FinalAll(paths));
    AllSucceedConcat(w, SignAll(cfg, paths), n + FinalAll(paths));
    AllSucceedConcat(w, Stats(paths), SignAll(cfg, paths) + (n + FinalAll(paths)));
  }

  /** The first failing action ends the run with exit status 1: an action that
      failed is the last one issued, and a run that exits 1 after issuing
      anything ends with a failed action. */
  lemma RunStopsAtFailure(cfg: Config, paths: seq<string>, zipName: string, w: World)
    ensures var r := Expected(cfg, paths, zipName, w);
      && (forall j :: 0 <= j < |r.trace| && !Succeeded(w, r.trace[j]) ==> j == |r.trace| - 1 && r.code == 1)
      && (r.code == 1 && r.trace != [] ==> !Succeeded(w, r.trace[|r.trace| - 1]))
  {
    var r := Expected(cfg, paths, zipName, w);
    if cfg.profile != "" && paths != [] {
      var plan := Plan(cfg, paths, zipName);
      assert r == FailFast(plan, w);
      FailFastLast(plan, w);
      FailFastExitZero(plan, w);
      forall j | 0 <= j < |r.trace| && !Succeeded(w, r.trace[j]) ensures j == |r.trace| - 1 && r.code == 1 {
        FailFastAt(plan, w, j);
      }
    }
  }

  /** Stopping inside a part of the plan never reaches what follows it. */
  lemma FailFastWithin(first: seq<Action>, second: seq<Action>, w: World)
    requires !AllSucceed(w, first)
    ensures FailFast(first + second, w) == FailFast(first, w)
  {
    FailFastExitZero(first, w);
    FailFastThen(first, second, w);
  }

  /** If any argument does not exist, the run exits 1 having stat'ed paths in
      order and nothing else: no signing, archiving, notarization or file change. */
  lemma MissingPathAborts(cfg: Config, paths: seq<string>, zipName: string, w: World, missing: string)
    requires missing in paths && w.stat(missing) == NotExist
    ensures var r := Expected(cfg, paths, zipName, w);
      && r.code == 1
      && |r.trace| <= |paths|
      && (forall i :: 0 <= i < |r.trace| ==> r.trace[i] == Stat(paths[i]))
  {
    if cfg.profile != "" && paths != [] {
      var stats := Stats(paths);
      StatsSucceed(paths, w);
      StatsAt(paths);
      FailFastWithin(stats, SignAll(cfg, paths) + (Notarization(cfg, zipName, paths) + FinalAll(paths)), w);
      FailFastPrefix(stats, w);
      FailFastExitZero(stats, w);
    }
  }

  lemma {:induction false} SignAllTools(cfg: Config, paths: seq<string>)
    ensures forall a :: a in SignAll(cfg, paths) && a.Exec? ==> a.exe == "codesign" || a.exe == "productsign"
  {
    if paths != [] {
      SignAllTools(cfg, paths[1..]);
      assert SignAll(cfg, paths) == SignActions(cfg, paths[0]) + SignAll(cfg, paths[1..]);
    }
  }

  /** Within the signing stage: paths before k are signed in full, then path k's
      steps run up to the one that fails. */
  lemma SignStageHalts(cfg: Config, paths: seq<string>, w: World, k: int)
    requires 0 <= k < |paths|
    requires forall j :: 0 <= j < k ==> SignSucceeds(cfg, w, paths[j])
    requires !SignSucceeds(cfg, w, paths[k])
    ensures FailFast(SignAll(cfg, paths), w) ==
      Outcome(SignAll(cfg, paths[..k]) + FailFast(SignActions(cfg, paths[k]), w).trace, 1)
  {
    var before, current, after := SignAll(cfg, paths[..k]), SignActions(cfg, paths[k]), SignAll(cfg, paths[k + 1..]);
    assert paths == paths[..k] + ([paths[k]] + paths[k + 1..]);
    SignAllSplit(cfg, paths[..k], [paths[k]] + paths[k + 1..]);
    SignAllSplit(cfg, [paths[k]], paths[k + 1..]);
    assert [paths[k]][1..] == [];
    assert SignAll(cfg, [paths[k]]) == current;
    assert SignAll(cfg, paths) == before + (current + after);
    SignAllSucceed(cfg, paths[..k], w);
    assert AllSucceed(w, before) by {
      forall p | p in paths[..k] ensures SignSucceeds(cfg, w, p) {
        var j :| 0 <= j < k && paths[..k][j] == p;
      }
    }
    SignActionsSucceed(cfg, w, paths[k]);
    FailFastAfter(before, current + after, w);
    FailFastWithin(current, after, w);
    FailFastExitZero(current, w);
  }

  /** If every path exists and the k-th is the first whose signing fails, the run
      exits 1 right there: all paths were stat'ed, paths before k signed, and of
      path k only the steps up to the failing one were issued. Nothing is issued
      for later paths, and no zip or notarization happens. */
  lemma SignFailureHalts(cfg: Config, paths: seq<string>, zipName: string, w: World, k: int)
    requires cfg.profile != "" && 0 <= k < |paths|
    requires forall p :: p in paths ==> w.stat(p) != NotExist
    requires forall j :: 0 <= j < k ==> SignSucceeds(cfg, w, paths[j])
    requires !SignSucceeds(cfg, w, paths[k])
    ensures var r := Expected(cfg, paths, zipName, w);
      && r.code == 1
      && r.trace == Stats(paths) + SignAll(cfg, paths[..k]) + FailFast(SignActions(cfg, paths[k]), w).trace
      && (forall a :: a in r.trace ==> !(a.Exec? && (a.exe == "zip" || a.exe == "xcrun")))
      && (!w.succeeds(SignCommand(cfg, paths[k])) ==> r.trace[|r.trace| - 1] == SignCommand(cfg, paths[k]))
  {
    var stats, sign := Stats(paths), SignAll(cfg, paths);
    var later := Notarization(cfg, zipName, paths) + FinalAll(paths);
    StatsSucceed(paths, w);
    SignStageHalts(cfg, paths, w, k);
    FailFastAfter(stats, sign + later, w);
    FailFastThen(sign, later, w);
    var r := Expected(cfg, paths, zipName, w);
    var signed := FailFast(sign, w).trace;
    assert r.trace == stats + signed;

    FailFastIssuesPlanned(sign, w);
    StatsAt(paths);
    SignAllTools(cfg, paths);
    forall a | a in r.trace ensures !(a.Exec? && (a.exe == "zip" || a.exe == "xcrun")) {
      if a in stats {
        var i :| 0 <= i < |stats| && stats[i] == a;
      } else {
        assert a in signed;
      }
    }

    var current := SignActions(cfg, paths[k]);
    if !w.succeeds(SignCommand(cfg, paths[k])) {
      FailFastStopsAt([], current, w);
      assert [] + current == current;
    }
  }

  /** Once every path passed validation and signing, the run goes on with the
      archive stage. */
  lemma {:induction false} SignedRunContinues(cfg: Config, paths: seq<string>, zipName: string, w: World)
    requires cfg.profile != "" && paths != []
    requires forall p :: p in paths ==> w.stat(p) != NotExist
    requires forall p :: p in paths ==> SignSucceeds(cfg, w, p)
    ensures var rest := FailFast(Notarization(cfg, zipName, paths) + FinalAll(paths), w);
      Expected(cfg, paths, zipName, w) == Outcome(Stats(paths) + SignAll(cfg, paths) + rest.trace, rest.code)
  {
    var stats, sign, later := Stats(paths), SignAll(cfg, paths), Notarization(cfg, zipName, paths) + FinalAll(paths);
    StatsSucceed(paths, w);
    SignAllSucceed(cfg, paths, w);
    AllSucceedConcat(w, stats, sign);
    assert Plan(cfg, paths, zipName) == (stats + sign) + later;
    FailFastAfter(stats + sign, later, w);
  }

  /** The archive stage on its own: a failing zip is its last action, and so is
      a failing notarization. */
  lemma {:induction false} ArchiveHalts(cfg: Config, paths: seq<string>, zipName: string, w: World)
    ensures var zip, submit := ZipCommand(zipName, paths), NotarizeCommand(cfg.profile, zipName);
      var r := FailFast(Notarization(cfg, zipName, paths) + FinalAll(paths), w);
      && (!w.succeeds(zip) ==> r == Outcome([zip], 1))
      && (w.succeeds(zip) && !w.succeeds(submit) ==> r == Outcome([zip, submit], 1))
  {
    var s := Notarization(cfg, zipName, paths) + FinalAll(paths);
    assert s[0] == ZipCommand(zipName, paths);
    assert s[1..][0] == NotarizeCommand(cfg.profile, zipName);
  }

  /** Once every path is signed: a failing zip is the last action (no notarization,
      no archive removal), and a failing notarization is the last action (the
      archive is left in place). */
  lemma {:induction false} ArchiveStageFailure(cfg: Config, paths: seq<string>, zipName: string, w: World)
    requires cfg.profile != "" && paths != []
    requires forall p :: p in paths ==> w.stat(p) != NotExist
    requires forall p :: p in paths ==> SignSucceeds(cfg, w, p)
    ensures var r := Expected(cfg, paths, zipName, w); var signed := Stats(paths) + SignAll(cfg, paths);
      && (!w.succeeds(ZipCommand(zipName, paths)) ==>
            r == Outcome(signed + [ZipCommand(zipName, paths)], 1))
      && (w.succeeds(ZipCommand(zipName, paths)) && !w.succeeds(NotarizeCommand(cfg.profile, zipName)) ==>
            r == Outcome(signed + [ZipCommand(zipName, paths), NotarizeCommand(cfg.profile, zipName)], 1))
  {
    SignedRunContinues(cfg, paths, zipName, w);
    ArchiveHalts(cfg, paths, zipName, w);
  }

  // ---------------------------------------------------------------------------
  // Ordering and guarding of effects: what must come right before an action
  // ---------------------------------------------------------------------------

  /** An installer's original is removed only directly after productsign
      succeeded on it. */
  lemma RemoveFollowsProductsign(cfg: Config, paths: seq<string>, now: int, w: World, j: int)
    requires var t := Expected(cfg, paths, ZipName(now), w).trace;
      0 <= j < |t| && t[j].Remove? && IsInstaller(t[j].path)
    ensures var t := Expected(cfg, paths, ZipName(now), w).trace;
      && j > 0 && t[j - 1] == SignCommand(cfg, t[j].path)
      && t[j - 1].exe == "productsign" && w.succeeds(t[j - 1])
  {
    ZipNameIsNotInstaller(now);
    TraceFollowsPlan(cfg, paths, ZipName(now), w);
    PlanGuards(cfg, paths, ZipName(now), j);
  }

  /** The signed copy is renamed over the original only directly after the
      original's removal succeeded. */
  lemma RenameFollowsRemove(cfg: Config, paths: seq<string>, zipName: string, w: World, j: int)
    requires var t := Expected(cfg, paths, zipName, w).trace;
      0 <= j < |t| && t[j].Rename?
    ensures var t := Expected(cfg, paths, zipName, w).trace;
      && t[j].from == SignedTempPath(t[j].to)
      && j > 0 && t[j - 1] == Remove(t[j].to) && w.succeeds(t[j - 1])
  {
    TraceFollowsPlan(cfg, paths, zipName, w);
    PlanGuards(cfg, paths, zipName, j);
  }

  /** The zip is issued only once every path was stat'ed and signed with success,
      and it archives exactly the given paths, in order. */
  lemma ZipFollowsSigning(cfg: Config, paths: seq<string>, zipName: string, w: World, j: int)
    requires var t := Expected(cfg, paths, zipName, w).trace;
      0 <= j < |t| && t[j].Exec? && t[j].exe == "zip"
    ensures var t := Expected(cfg, paths, zipName, w).trace;
      && t[..j] == Stats(paths) + SignAll(cfg, paths)
      && AllSucceed(w, t[..j])
      && t[j] == ZipCommand(zipName, paths)
      && t[j].args[2..] == paths
  {
    TraceFollowsPlan(cfg, paths, zipName, w);
    PlanGuards(cfg, paths, zipName, j);
    var t := Expected(cfg, paths, zipName, w).trace;
    var plan := Plan(cfg, paths, zipName);
    StatsAt(paths);
    assert t[..j] == plan[..j];
    assert plan[..j] == Stats(paths) + SignAll(cfg, paths);
    forall a | a in t[..j] ensures Succeeded(w, a) {
      var i :| 0 <= i < j && t[..j][i] == a;
    }
  }

  /** Notarization is submitted only directly after the zip succeeded. */
  lemma NotarizeFollowsZip(cfg: Config, paths: seq<string>, zipName: string, w: World, j: int)
    requires var t := Expected(cfg, paths, zipName, w).trace;
      0 <= j < |t| && t[j] == NotarizeCommand(cfg.profile, zipName)
    ensures var t := Expected(cfg, paths, zipName, w).trace;
      j > 0 && t[j - 1] == ZipCommand(zipName, paths) && w.succeeds(t[j - 1])
  {
    TraceFollowsPlan(cfg, paths, zipName, w);
    PlanGuards(cfg, paths, zipName, j);
  }

  /** The archive is removed only directly after notarization succeeded. */
  lemma ZipRemovalFollowsNotarize(cfg: Config, paths: seq<string>, now: int, w: World, j: int)
    requires var t := Expected(cfg, paths, ZipName(now), w).trace;
      0 <= j < |t| && t[j] == Remove(ZipName(now))
    ensures var t := Expected(cfg, paths, ZipName(now), w).trace;
      j > 0 && t[j - 1] == NotarizeCommand(cfg.profile, ZipName(now)) && w.succeeds(t[j - 1])
  {
    ZipNameIsNotInstaller(now);
    TraceFollowsPlan(cfg, paths, ZipName(now), w);
    PlanGuards(cfg, paths, ZipName(now), j);
  }

  /** A path's notarization is verified only directly after stapling it succeeded. */
  lemma VerifyFollowsStaple(cfg: Config, paths: seq<string>, zipName: string, w: World, j: int, path: string)
    requires var t := Expected(cfg, paths, zipName, w).trace;
      0 <= j < |t| && t[j] == VerifyCommand(path)
    ensures var t := Expected(cfg, paths, zipName, w).trace;
      j > 0 && t[j - 1] == StapleCommand(path) && w.succeeds(t[j - 1])
  {
    TraceFollowsPlan(cfg, paths, zipName, w);
    PlanGuards(cfg, paths, zipName, j);
  }

  // The position lemmas below take the position `k` itself, so that callers can
  // hand over exactly the index term they work with.

  /** The archive removal is the last action before the final stage. */
  lemma {:induction false} PlanArchiveRemovalAt(cfg: Config, paths: seq<string>, zipName: string, k: int)
    requires k == |paths| + |SignAll(cfg, paths)| + 2
    ensures var plan := Plan(cfg, paths, zipName); 0 <= k < |plan| && plan[k] == Remove(zipName)
  {
    StatsAt(paths);
  }

  /** The final stage staples the i-th path at offset 2 * i ... */
  lemma {:induction false} PlanStapleAt(cfg: Config, paths: seq<string>, zipName: string, i: int, k: int)
    requires 0 <= i < |paths| && k == |paths| + |SignAll(cfg, paths)| + 3 + 2 * i
    ensures var plan := Plan(cfg, paths, zipName); k < |plan| && plan[k] == StapleCommand(paths[i])
  {
    StatsAt(paths);
    FinalAllIndex(paths, i);
    ConcatAt(Stats(paths), SignAll(cfg, paths), Notarization(cfg, zipName, paths), FinalAll(paths), 2 * i);
  }

  /** ... and verifies it right after, at offset 2 * i + 1. */
  lemma {:induction false} PlanVerifyAt(cfg: Config, paths: seq<string>, zipName: string, i: int, k: int)
    requires 0 <= i < |paths| && k == |paths| + |SignAll(cfg, paths)| + 3 + 2 * i + 1
    ensures var plan := Plan(cfg, paths, zipName); k < |plan| && plan[k] == VerifyCommand(paths[i])
  {
    StatsAt(paths);
    FinalAllIndex(paths, i);
    ConcatAt(Stats(paths), SignAll(cfg, paths), Notarization(cfg, zipName, paths), FinalAll(paths), 2 * i + 1);
  }

  lemma ConcatAt(a: seq<Action>, b: seq<Action>, c: seq<Action>, d: seq<Action>, k: int)
    requires 0 <= k < |d|
    ensures |a| + |b| + |c| + k < |a + (b + (c + d))|
    ensures (a + (b + (c + d)))[|a| + |b| + |c| + k] == d[k]
  {
  }

  /** The final stage starts right after the archive was removed with success:
      the action before the first stapling is the archive removal, and it succeeded. */
  lemma {:induction false} ArchiveRemovedBeforeStapling(cfg: Config, paths: seq<string>, zipName: string, w: World)
    requires |paths| + |SignAll(cfg, paths)| + 3 < |Expected(cfg, paths, zipName, w).trace|
    ensures var t := Expected(cfg, paths, zipName, w).trace; var base := |paths| + |SignAll(cfg, paths)| + 3;
      t[base - 1] == Remove(zipName) && w.succeeds(Remove(zipName))
  {
    var base := |paths| + |SignAll(cfg, paths)| + 3;
    PlanArchiveRemovalAt(cfg, paths, zipName, base - 1);
    TracePair(cfg, paths, zipName, w, base);
  }

  /** The final stage goes path by path: the i-th path is stapled at offset 2 * i ... */
  lemma {:induction false} StapleOrder(cfg: Config, paths: seq<string>, zipName: string, w: World, i: int)
    requires 0 <= i < |paths|
    requires |paths| + |SignAll(cfg, paths)| + 3 + 2 * i < |Expected(cfg, paths, zipName, w).trace|
    ensures var t := Expected(cfg, paths, zipName, w).trace;
      t[|paths| + |SignAll(cfg, paths)| + 3 + 2 * i] == StapleCommand(paths[i])
  {
    var k := |paths| + |SignAll(cfg, paths)| + 3 + 2 * i;
    PlanStapleAt(cfg, paths, zipName, i, k);
    TraceAt(cfg, paths, zipName, w, k);
  }

  /** ... and, past the first, only after the previous path was verified with success. */
  lemma {:induction false} StapleAfterVerify(cfg: Config, paths: seq<string>, zipName: string, w: World, i: int)
    requires 0 < i < |paths|
    requires |paths| + |SignAll(cfg, paths)| + 3 + 2 * i < |Expected(cfg, paths, zipName, w).trace|
    ensures var t := Expected(cfg, paths, zipName, w).trace; var k := |paths| + |SignAll(cfg, paths)| + 3 + 2 * i;
      t[k - 1] == VerifyCommand(paths[i - 1]) && w.succeeds(VerifyCommand(paths[i - 1]))
  {
    var k := |paths| + |SignAll(cfg, paths)| + 3 + 2 * i;
    PlanVerifyAt(cfg, paths, zipName, i - 1, k - 1);
    TracePair(cfg, paths, zipName, w, k);
  }

  /** The i-th path is verified right after its stapling, and only once the stapling succeeded. */
  lemma {:induction false} VerifyOrder(cfg: Config, paths: seq<string>, zipName: string, w: World, i: int)
    requires 0 <= i < |paths|
    requires |paths| + |SignAll(cfg, paths)| + 3 + 2 * i + 1 < |Expected(cfg, paths, zipName, w).trace|
    ensures var t := Expected(cfg, paths, zipName, w).trace; var base := |paths| + |SignAll(cfg, paths)| + 3;
      t[base + 2 * i + 1] == VerifyCommand(paths[i]) && w.succeeds(StapleCommand(paths[i]))
  {
    var k := |paths| + |SignAll(cfg, paths)| + 3 + 2 * i;
    PlanStapleAt(cfg, paths, zipName, i, k);
    PlanVerifyAt(cfg, paths, zipName, i, k + 1);
    TracePair(cfg, paths, zipName, w, k + 1);
  }

  // ---------------------------------------------------------------------------
  // Whole runs over one artifact
  // ---------------------------------------------------------------------------

  /** The plan for a single artifact, stage by stage. */
  lemma {:induction false} SinglePlan(cfg: Config, path: string, zipName: string)
    ensures Plan(cfg, [path], zipName) ==
      [Stat(path)] + (SignActions(cfg, path) + (Notarization(cfg, zipName, [path]) + [StapleCommand(path), VerifyCommand(path)]))
  {
    assert [path][1..] == [];
    assert Stats([path]) == [Stat(path)];
    assert SignAll(cfg, [path]) == SignActions(cfg, path);
    assert FinalAll([path]) == [StapleCommand(path), VerifyCommand(path)];
  }

  /** When nothing fails, a run issues its whole plan and exits 0. */
  lemma {:induction false} NothingFails(cfg: Config, paths: seq<string>, zipName: string, w: World)
    requires cfg.profile != "" && paths != []
    requires forall a :: w.succeeds(a)
    requires forall p :: w.stat(p) != NotExist
    ensures Expected(cfg, paths, zipName, w) == Outcome(Plan(cfg, paths, zipName), 0)
  {
    var plan := Plan(cfg, paths, zipName);
    FailFastExitZero(plan, w);
    assert AllSucceed(w, plan) by {
      forall a | a in plan ensures Succeeded(w, a) {
        if a.Stat? {
          assert w.stat(a.path) != NotExist;
        }
      }
    }
  }

  /** The plan over one application bundle, written out. */
  lemma {:induction false} AppBundlePlan(cfg: Config, zipName: string)
    ensures Plan(cfg, ["App.app"], zipName) == [
      Stat("App.app"),
      Exec("codesign", ["-s", cfg.applicationIdentity, "-f", "--timestamp", "App.app"]),
      Exec("zip", ["-r", zipName, "App.app"]),
      Exec("xcrun", ["notarytool", "submit", "--keychain-profile", cfg.profile, "--wait", zipName]),
      Remove(zipName),
      Exec("xcrun", ["stapler", "staple", "App.app"]),
      Exec("codesign", ["--test-requirement=\"=notarized\"", "--verify", "App.app"])]
  {
    var app := "App.app";
    assert !IsInstaller(app) by {
      assert app[3..] != PkgSuffix by { assert app[3..][1] != PkgSuffix[1]; }
    }
    SinglePlan(cfg, app, zipName);
    assert SignActions(cfg, app) == [Exec("codesign", ["-s", cfg.applicationIdentity, "-f", "--timestamp", app])];
    assert ZipCommand(zipName, [app]) == Exec("zip", ["-r", zipName, app]);
  }

  /** A fully successful run over one application bundle. */
  lemma {:induction false} AppBundleRun(cfg: Config, zipName: string, w: World)
    requires cfg.profile != ""
    requires forall a :: w.succeeds(a)
    requires forall p :: w.stat(p) != NotExist
    ensures Expected(cfg, ["App.app"], zipName, w) == Outcome([
      Stat("App.app"),
      Exec("codesign", ["-s", cfg.applicationIdentity, "-f", "--timestamp", "App.app"]),
      Exec("zip", ["-r", zipName, "App.app"]),
      Exec("xcrun", ["notarytool", "submit", "--keychain-profile", cfg.profile, "--wait", zipName]),
      Remove(zipName),
      Exec("xcrun", ["stapler", "staple", "App.app"]),
      Exec("codesign", ["--test-requirement=\"=notarized\"", "--verify", "App.app"])], 0)
  {
    NothingFails(cfg, ["App.app"], zipName, w);
    AppBundlePlan(cfg, zipName);
  }

  /** The signing step for an installer package, written out. */
  lemma {:induction false} InstallerSignActions(cfg: Config)
    ensures SignActions(cfg, "Installer.pkg") == [
      Exec("productsign", ["--timestamp", "--sign", cfg.installerIdentity, "Installer.pkg", "__Signed_Installer.pkg"]),
      Remove("Installer.pkg"),
      Rename("__Signed_Installer.pkg", "Installer.pkg")]
  {
    ClassificationIsCaseSensitive();
    assert SignedTempPath("Installer.pkg") == "__Signed_Installer.pkg";
  }

  /** The plan over one installer package, written out. */
  lemma {:induction false} InstallerPlan(cfg: Config, zipName: string)
    ensures Plan(cfg, ["Installer.pkg"], zipName) == [
      Stat("Installer.pkg"),
      Exec("productsign", ["--timestamp", "--sign", cfg.installerIdentity, "Installer.pkg", "__Signed_Installer.pkg"]),
      Remove("Installer.pkg"),
      Rename("__Signed_Installer.pkg", "Installer.pkg"),
      Exec("zip", ["-r", zipName, "Installer.pkg"]),
      Exec("xcrun", ["notarytool", "submit", "--keychain-profile", cfg.profile, "--wait", zipName]),
      Remove(zipName),
      Exec("xcrun", ["stapler", "staple", "Installer.pkg"]),
      Exec("codesign", ["--test-requirement=\"=notarized\"", "--verify", "Installer.pkg"])]
  {
    var pkg := "Installer.pkg";
    SinglePlan(cfg, pkg, zipName);
    InstallerSignActions(cfg);
    assert ZipCommand(zipName, [pkg]) == Exec("zip", ["-r", zipName, pkg]);
    assert Notarization(cfg, zipName, [pkg]) == [
      Exec("zip", ["-r", zipName, pkg]),
      Exec("xcrun", ["notarytool", "submit", "--keychain-profile", cfg.profile, "--wait", zipName]),
      Remove(zipName)];
  }

  /** A fully successful run over one installer package: signed to the temporary
      name, the original removed, the signed package renamed over it. */
  lemma {:induction false} InstallerRun(cfg: Config, zipName: string, w: World)
    requires cfg.profile != ""
    requires forall a :: w.succeeds(a)
    requires forall p :: w.stat(p) != NotExist
    ensures Expected(cfg, ["Installer.pkg"], zipName, w) == Outcome([
      Stat("Installer.pkg"),
      Exec("productsign", ["--timestamp", "--sign", cfg.installerIdentity, "Installer.pkg", "__Signed_Installer.pkg"]),
      Remove("Installer.pkg"),
      Rename("__Signed_Installer.pkg", "Installer.pkg"),
      Exec("zip", ["-r", zipName, "Installer.pkg"]),
      Exec("xcrun", ["notarytool", "submit", "--keychain-profile", cfg.profile, "--wait", zipName]),
      Remove(zipName),
      Exec("xcrun", ["stapler", "staple", "Installer.pkg"]),
      Exec("codesign", ["--test-requirement=\"=notarized\"", "--verify", "Installer.pkg"])], 0)
  {
    NothingFails(cfg, ["Installer.pkg"], zipName, w);
    InstallerPlan(cfg, zipName);
  }

  /** When productsign fails on the only installer, the run exits 1 right after
      it: the original package is never removed and no archive is made. */
  lemma {:induction false} InstallerSignFailure(cfg: Config, zipName: string, w: World)
    requires cfg.profile != ""
    requires w.stat("Installer.pkg") != NotExist
    requires !w.succeeds(Exec("productsign",
      ["--timestamp", "--sign", cfg.installerIdentity, "Installer.pkg", "__Signed_Installer.pkg"]))
    ensures Expected(cfg, ["Installer.pkg"], zipName, w) == Outcome([
      Stat("Installer.pkg"),
      Exec("productsign", ["--timestamp", "--sign", cfg.installerIdentity, "Installer.pkg", "__Signed_Installer.pkg"])], 1)
  {
    var plan := Plan(cfg, ["Installer.pkg"], zipName);
    SinglePlan(cfg, "Installer.pkg", zipName);
    InstallerSignActions(cfg);
    assert Expected(cfg, ["Installer.pkg"], zipName, w) == FailFast(plan, w);
    FailFastSecondFails(plan, w);
  }

  // ---------------------------------------------------------------------------
  // The raw command line
  // ---------------------------------------------------------------------------

  /** The exit status of an invocation: 2 exactly for a flag error, 0 exactly for
      a help request or a run in which every planned step succeeds; a help
      request or a flag error issues no action. */
  lemma InvocationStatus(cfg: Config, argv: seq<string>, zipName: string, w: World)
    ensures var r := Invocation(cfg, argv, zipName, w); var p := ParseFlags(argv);
      && (r.code == 2 <==> cfg.profile != "" && p.BadFlag?)
      && (r.code == 0 <==>
            cfg.profile != "" && (p.Help? || (p.Positional? && p.args != [] && AllSucceed(w, Plan(cfg, p.args, zipName)))))
      && (!p.Positional? ==> r.trace == [])
  {
    var p := ParseFlags(argv);
    if cfg.profile != "" && p.Positional? && p.args != [] {
      FailFastExitZero(Plan(cfg, p.args, zipName), w);
    }
  }

  /** Without a leading flag or `--`, an invocation is the run over its arguments
      as given, so every property of `Expected` holds of it. */
  lemma InvocationOfPlainArguments(cfg: Config, argv: seq<string>, zipName: string, w: World)
    requires argv == [] || IsPlain(argv[0])
    ensures Invocation(cfg, argv, zipName, w) == Expected(cfg, argv, zipName, w)
  {
  }

  /** `macsign -h App.app` exits 0 having done nothing, and `macsign -v App.app`
      exits 2 having done nothing. */
  lemma LeadingFlagDoesNothing(cfg: Config, zipName: string, w: World)
    requires cfg.profile != ""
    ensures Invocation(cfg, ["-h", "App.app"], zipName, w) == Outcome([], 0)
    ensures Invocation(cfg, ["-v", "App.app"], zipName, w) == Outcome([], 2)
  {
    ShortHelpFlag(["App.app"]);
    UndefinedFlag(["App.app"]);
  }
}
