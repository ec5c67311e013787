/** The macsign pipeline: Validate -> Sign each path -> Zip -> Notarize ->
    Remove zip -> Staple and Verify each path, halting at the first failure
    with exit status 1. */
module Pipeline {
  import opened Commands
  import opened Flags

  /** What os.Stat reports for a path, as far as the run distinguishes it. */
  datatype StatResult = Found | NotExist | OtherError

  /** The outside world: the outcome of every action the run may issue. */
  datatype World = World(stat: string -> StatResult, succeeds: Action -> bool)

  /** A run's observable result: the actions issued, in order, and the exit status. */
  datatype Outcome = Outcome(trace: seq<Action>, code: int)

  /** Whether the run carries on after the action. Validation aborts only when os.IsNotExist
      holds of the error; any other Stat error is ignored. */
  predicate Succeeded(w: World, a: Action) {
    match a
    case Stat(p) => w.stat(p) != NotExist
    case _ => w.succeeds(a)
  }

  predicate AllSucceed(w: World, s: seq<Action>) {
    forall a :: a in s ==> Succeeded(w, a)
  }

  // ---------------------------------------------------------------------------
  // The plan: every action the run issues when every step succeeds. It does
  // not depend on the world, since the run only branches on failures.
  // ---------------------------------------------------------------------------

  function Stats(paths: seq<string>): seq<Action> {
    if paths == [] then [] else [Stat(paths[0])] + Stats(paths[1..])
  }

  /** The signing step for one artifact: an installer is signed to a temporary
      path, the original removed and the signed copy renamed over it; any other
      artifact is signed in place. */
  function SignActions(cfg: Config, path: string): seq<Action> {
    if IsInstaller(path) then
      [SignCommand(cfg, path), Remove(path), Rename(SignedTempPath(path), path)]
    else
      [SignCommand(cfg, path)]
  }

  function SignAll(cfg: Config, paths: seq<string>): seq<Action> {
    if paths == [] then [] else SignActions(cfg, paths[0]) + SignAll(cfg, paths[1..])
  }

  /** Archive every path under `zipName`, submit the archive and wait for the
      verdict, delete the archive. */
  function Notarization(cfg: Config, zipName: string, paths: seq<string>): seq<Action> {
    [ZipCommand(zipName, paths), NotarizeCommand(cfg.profile, zipName), Remove(zipName)]
  }

  function FinalAll(paths: seq<string>): seq<Action> {
    if paths == [] then [] else [StapleCommand(paths[0]), VerifyCommand(paths[0])] + FinalAll(paths[1..])
  }

  /** The archive name is a parameter: the run derives it from the clock once
      (`ZipName(now)`), and nothing else in the plan depends on the time. */
  function Plan(cfg: Config, paths: seq<string>, zipName: string): seq<Action> {
    Stats(paths) + (SignAll(cfg, paths) + (Notarization(cfg, zipName, paths) + FinalAll(paths)))
  }

  /** Issue the plan's actions in order and stop at the first one that fails. */
  function FailFast(plan: seq<Action>, w: World): (r: Outcome)
    ensures r.code == 0 || r.code == 1
  {
    if plan == [] then Outcome([], 0)
    else if !Succeeded(w, plan[0]) then Outcome([plan[0]], 1)
    else
      var rest := FailFast(plan[1..], w);
      Outcome([plan[0]] + rest.trace, rest.code)
  }

  /** What a run does: an empty keychain profile or an empty argument list
      exits 1 before anything is issued; otherwise the plan runs fail-fast. */
  function Expected(cfg: Config, paths: seq<string>, zipName: string, w: World): (r: Outcome)
    ensures r.code == 0 || r.code == 1
  {
    if cfg.profile == "" || paths == [] then Outcome([], 1) else FailFast(Plan(cfg, paths, zipName), w)
  }

  /** What an invocation of macsign does with its raw command line: an empty
      keychain profile exits 1 before the command line is parsed; then `-h` or
      `-help` exits 0 and any other flag exits 2, both before any action, and
      the positional arguments run as `Expected`. */
  function Invocation(cfg: Config, argv: seq<string>, zipName: string, w: World): (r: Outcome)
    ensures r.code == 0 || r.code == 1 || r.code == 2
  {
    if cfg.profile == "" then Outcome([], 1)
    else
      match ParseFlags(argv)
      case Help => Outcome([], 0)
      case BadFlag => Outcome([], 2)
      case Positional(args) => Expected(cfg, args, zipName, w)
  }

  /** A run issues a prefix of its plan. */
  lemma {:induction false} FailFastPrefix(plan: seq<Action>, w: World)
    ensures var t := FailFast(plan, w).trace; |t| <= |plan| && t == plan[..|t|]
  {
    if plan != [] && Succeeded(w, plan[0]) {
      FailFastPrefix(plan[1..], w);
    }
  }

  /** A run exits 0 exactly when every planned action succeeds, and then it issued all of them. */
  lemma {:induction false} FailFastExitZero(plan: seq<Action>, w: World)
    ensures var r := FailFast(plan, w); (r.code == 0 <==> AllSucceed(w, plan)) && (r.code == 0 ==> r.trace == plan)
  {
    if plan != [] && Succeeded(w, plan[0]) {
      var tail := plan[1..];
      FailFastExitZero(tail, w);
      assert plan == [plan[0]] + tail;
      assert AllSucceed(w, plan) <==> AllSucceed(w, tail);
    }
  }

  /** A run that exits 1 ends with the first action that failed; all before it succeeded. */
  lemma {:induction false} FailFastLast(plan: seq<Action>, w: World)
    ensures var t := FailFast(plan, w).trace;
      FailFast(plan, w).code == 1 ==> t != [] && !Succeeded(w, t[|t| - 1]) && AllSucceed(w, t[..|t| - 1])
  {
    if plan != [] && Succeeded(w, plan[0]) {
      var tail := plan[1..];
      FailFastLast(tail, w);
      var t := FailFast(tail, w).trace;
      if t != [] {
        assert ([plan[0]] + t)[..|t|] == [plan[0]] + t[..|t| - 1];
      }
    }
  }

  /** A run issues only planned actions. */
  lemma FailFastIssuesPlanned(plan: seq<Action>, w: World)
    ensures forall a :: a in FailFast(plan, w).trace ==> a in plan
  {
    FailFastPrefix(plan, w);
    var t := FailFast(plan, w).trace;
    forall a | a in t ensures a in plan {
      var i :| 0 <= i < |t| && t[i] == a;
      assert plan[i] == a;
    }
  }

  /** The j-th action issued is the j-th planned one, and every issued action
      that is followed by another one succeeded. */
  lemma FailFastAt(plan: seq<Action>, w: World, j: int)
    requires 0 <= j < |FailFast(plan, w).trace|
    ensures j < |plan| && FailFast(plan, w).trace[j] == plan[j]
    ensures j + 1 < |FailFast(plan, w).trace| ==> Succeeded(w, plan[j])
  {
    FailFastPrefix(plan, w);
    FailFastExitZero(plan, w);
    FailFastLast(plan, w);
    var t := FailFast(plan, w).trace;
    if j + 1 < |t| {
      if FailFast(plan, w).code == 0 {
        assert plan[j] in plan;
      } else {
        assert t[j] in t[..|t| - 1];
      }
    }
  }

  /** A run whose first action succeeds and whose second fails stops after the second. */
  lemma {:induction false} FailFastSecondFails(plan: seq<Action>, w: World)
    requires |plan| >= 2 && Succeeded(w, plan[0]) && !Succeeded(w, plan[1])
    ensures FailFast(plan, w) == Outcome([plan[0], plan[1]], 1)
  {
    assert plan[1..][0] == plan[1];
  }

  /** Issuing actions that all succeed and then a plan gives those actions followed by the plan's run. */
  lemma {:induction false} FailFastAfter(done: seq<Action>, rest: seq<Action>, w: World)
    requires AllSucceed(w, done)
    ensures FailFast(done + rest, w).trace == done + FailFast(rest, w).trace
    ensures FailFast(done + rest, w).code == FailFast(rest, w).code
  {
    if done != [] {
      var tail := done[1..];
      assert AllSucceed(w, tail) by {
        forall a | a in tail ensures Succeeded(w, a) { assert a in done; }
      }
      var whole := done + rest;
      assert whole[0] == done[0] && Succeeded(w, whole[0]);
      assert whole[1..] == tail + rest;
      FailFastAfter(tail, rest, w);
      assert done == [done[0]] + tail;
    } else {
      assert done + rest == rest;
    }
  }

  lemma FailFastStopsAt(done: seq<Action>, rest: seq<Action>, w: World)
    requires AllSucceed(w, done)
    requires rest != [] && !Succeeded(w, rest[0])
    ensures FailFast(done + rest, w) == Outcome(done + [rest[0]], 1)
  {
    FailFastAfter(done, rest, w);
  }

  /** Issuing the next planned action, when it succeeds, keeps the run on the plan. */
  lemma StepSucceeds(whole: seq<Action>, issued: seq<Action>, rest: seq<Action>, w: World)
    requires AllSucceed(w, issued) && whole == issued + rest
    requires rest != [] && Succeeded(w, rest[0])
    ensures AllSucceed(w, issued + [rest[0]]) && whole == (issued + [rest[0]]) + rest[1..]
  {
    assert rest == [rest[0]] + rest[1..];
  }

  /** Fail-fast over a concatenation: the second part runs only when the first
      part succeeded throughout. */
  lemma FailFastThen(first: seq<Action>, second: seq<Action>, w: World)
    ensures FailFast(first + second, w) ==
      if FailFast(first, w).code == 0 then
        Outcome(first + FailFast(second, w).trace, FailFast(second, w).code)
      else FailFast(first, w)
  {
    FailFastPrefix(first, w);
    FailFastExitZero(first, w);
    FailFastLast(first, w);
    if FailFast(first, w).code == 0 {
      FailFastAfter(first, second, w);
    } else {
      var t := FailFast(first, w).trace;
      var done := t[..|t| - 1];
      assert first == done + first[|done|..];
      assert first + second == done + (first[|done|..] + second);
      FailFastStopsAt(done, first[|done|..], w);
      FailFastStopsAt(done, first[|done|..] + second, w);
      assert t == done + [t[|t| - 1]];
    }
  }

  /** A concatenation succeeds throughout exactly when both parts do. */
  lemma AllSucceedConcat(w: World, first: seq<Action>, second: seq<Action>)
    ensures AllSucceed(w, first + second) <==> AllSucceed(w, first) && AllSucceed(w, second)
  {
    if AllSucceed(w, first) && AllSucceed(w, second) {
      forall a | a in first + second ensures Succeeded(w, a) {
        assert a in first || a in second;
      }
    }
  }

  /** The validation loop: stat every path, stop at the first that does not exist. */
  method ValidatePaths(args: seq<string>, w: World) returns (issued: seq<Action>, ok: bool)
    ensures Outcome(issued, if ok then 0 else 1) == FailFast(Stats(args), w)
  {
    issued := [];
    ghost var rest := Stats(args);
    ghost var done: seq<Action>;
    for i := 0 to |args|
      invariant AllSucceed(w, issued) && Stats(args) == issued + rest
      invariant rest == Stats(args[i..])
    {
      assert args[i..][1..] == args[i + 1..];
      done := issued;
      issued := issued + [Stat(args[i])];
      if w.stat(args[i]) == NotExist {
        FailFastStopsAt(done, rest, w);
        ok := false;
        return;
      }
      StepSucceeds(Stats(args), done, rest, w);
      rest := rest[1..];
    }
    assert args[|args|..] == [];
    FailFastExitZero(Stats(args), w);
    ok := true;
  }

  /** The body of the signing loop for one artifact: an installer is signed to a
      temporary path, its original removed and the signed copy renamed over it;
      anything else is signed in place. */
  method SignOne(cfg: Config, path: string, w: World) returns (issued: seq<Action>, ok: bool)
    ensures Outcome(issued, if ok then 0 else 1) == FailFast(SignActions(cfg, path), w)
  {
    ghost var actions := SignActions(cfg, path);
    var sign := SignCommand(cfg, path);
    issued := [sign];
    if !w.succeeds(sign) {
      ok := false;
      return;
    }
    if IsInstaller(path) {
      var rename := Rename(SignedTempPath(path), path);
      assert actions[1..] == [Remove(path), rename];
      assert actions[1..][1..] == [rename];
      issued := issued + [Remove(path)];
      if !w.succeeds(Remove(path)) {
        ok := false;
        return;
      }
      issued := issued + [rename];
      if !w.succeeds(rename) {
        assert FailFast(actions[1..][1..], w) == Outcome([rename], 1);
        ok := false;
        return;
      }
      assert FailFast(actions[1..][1..], w) == Outcome([rename], 0);
    }
    ok := true;
  }

  /** The signing loop: sign every path in order, stop at the first failure. */
  method SignPaths(cfg: Config, args: seq<string>, w: World) returns (issued: seq<Action>, ok: bool)
    ensures Outcome(issued, if ok then 0 else 1) == FailFast(SignAll(cfg, args), w)
  {
    issued := [];
    for i := 0 to |args|
      invariant AllSucceed(w, issued) && SignAll(cfg, args) == issued + SignAll(cfg, args[i..])
    {
      assert args[i..][1..] == args[i + 1..];
      ghost var current, after := SignActions(cfg, args[i]), SignAll(cfg, args[i + 1..]);
      assert SignAll(cfg, args) == issued + (current + after);
      var one, signed := SignOne(cfg, args[i], w);
      FailFastAfter(issued, current + after, w);
      FailFastThen(current, after, w);
      if !signed {
        issued := issued + one;
        ok := false;
        return;
      }
      FailFastExitZero(current, w);
      AllSucceedConcat(w, issued, current);
      assert SignAll(cfg, args) == (issued + current) + after;
      issued := issued + one;
    }
    assert args[|args|..] == [];
    FailFastExitZero(SignAll(cfg, args), w);
    ok := true;
  }

  /** The final loop: staple each path, then verify its notarization. */
  method StapleAndVerify(args: seq<string>, w: World) returns (issued: seq<Action>, ok: bool)
    ensures Outcome(issued, if ok then 0 else 1) == FailFast(FinalAll(args), w)
  {
    issued := [];
    ghost var rest := FinalAll(args);
    ghost var done: seq<Action>;
    for i := 0 to |args|
      invariant AllSucceed(w, issued) && FinalAll(args) == issued + rest
      invariant rest == FinalAll(args[i..])
    {
      var path := args[i];
      assert args[i..][1..] == args[i + 1..];
      var staple := StapleCommand(path);
      assert rest == [staple, VerifyCommand(path)] + FinalAll(args[i + 1..]);
      done := issued;
      issued := issued + [staple];
      if !w.succeeds(staple) {
        FailFastStopsAt(done, rest, w);
        ok := false;
        return;
      }
      StepSucceeds(FinalAll(args), done, rest, w);
      rest := rest[1..];
      var verify := VerifyCommand(path);
      assert rest == [verify] + FinalAll(args[i + 1..]);
      done := issued;
      issued := issued + [verify];
      if !w.succeeds(verify) {
        FailFastStopsAt(done, rest, w);
        ok := false;
        return;
      }
      StepSucceeds(FinalAll(args), done, rest, w);
      rest := rest[1..];
    }
    assert args[|args|..] == [];
    FailFastExitZero(FinalAll(args), w);
    ok := true;
  }

  /** The single-step stages between signing and stapling: zip, notarize, remove the zip. */
  method Notarize(cfg: Config, zipFileName: string, args: seq<string>, w: World) returns (issued: seq<Action>, ok: bool)
    ensures Outcome(issued, if ok then 0 else 1) == FailFast(Notarization(cfg, zipFileName, args), w)
  {
    issued := [];
    var zip := ZipCommand(zipFileName, args);
    var notarize := NotarizeCommand(cfg.profile, zipFileName);
    ghost var rest := Notarization(cfg, zipFileName, args);
    assert rest == [zip, notarize, Remove(zipFileName)];
    ghost var done := issued;
    assert Notarization(cfg, zipFileName, args) == done + rest;
    issued := issued + [zip];
    if !w.succeeds(zip) {
      FailFastStopsAt(done, rest, w);
      ok := false;
      return;
    }
    StepSucceeds(Notarization(cfg, zipFileName, args), done, rest, w);
    rest := rest[1..];

    done := issued;
    issued := issued + [notarize];
    if !w.succeeds(notarize) {
      FailFastStopsAt(done, rest, w);
      ok := false;
      return;
    }
    StepSucceeds(Notarization(cfg, zipFileName, args), done, rest, w);
    rest := rest[1..];

    done := issued;
    issued := issued + [Remove(zipFileName)];
    if !w.succeeds(Remove(zipFileName)) {
      FailFastStopsAt(done, rest, w);
      ok := false;
      return;
    }
    StepSucceeds(Notarization(cfg, zipFileName, args), done, rest, w);
    assert issued == Notarization(cfg, zipFileName, args);
    FailFastExitZero(Notarization(cfg, zipFileName, args), w);
    ok := true;
  }

  /** One run of main: the configuration check, the command-line parse and the
      argument check, then each stage in turn; the first failure exits 1 and
      nothing after it is issued. */
  method Run(cfg: Config, argv: seq<string>, now: int, w: World) returns (trace: seq<Action>, code: int)
    ensures Outcome(trace, code) == Invocation(cfg, argv, ZipName(now), w)
  {
    trace := [];
    if cfg.profile == "" {
      code := 1;  // log.Fatal
      return;
    }
    var parsed := ParseFlags(argv);
    if parsed.Help? {
      code := 0;
      return;
    }
    if parsed.BadFlag? {
      code := 2;
      return;
    }
    var args := parsed.args;
    if |args| == 0 {
      code := 1;
      return;
    }
    var zipFileName := ZipName(now);
    ghost var validate, sign, notarization, finalize :=
      Stats(args), SignAll(cfg, args), Notarization(cfg, zipFileName, args), FinalAll(args);
    FailFastThen(validate, sign + (notarization + finalize), w);
    FailFastThen(sign, notarization + finalize, w);
    FailFastThen(notarization, finalize, w);
    FailFastExitZero(validate, w);
    FailFastExitZero(sign, w);
    FailFastExitZero(notarization, w);

    var validated, ok := ValidatePaths(args, w);
    if !ok {
      return validated, 1;
    }
    var signed;
    signed, ok := SignPaths(cfg, args, w);
    if !ok {
      return validated + signed, 1;
    }
    var notarized;
    notarized, ok := Notarize(cfg, zipFileName, args, w);
    if !ok {
      return validated + (signed + notarized), 1;
    }
    var finalized;
    finalized, ok := StapleAndVerify(args, w);
    trace := validated + (signed + (notarized + finalized));
    code := if ok then 0 else 1;
  }
}
