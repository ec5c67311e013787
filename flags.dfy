/** The command line as Go's `flag.Parse` leaves it for macsign, which defines
    no flags of its own: the parse stops at the first argument that is not a
    flag, so only the first argument can make a difference. */
module Flags {

  /** The outcome of `flag.Parse` on the default flag set, which exits on error:
      the positional arguments, a request for help (exit 0) or a flag error
      (exit 2). */
  datatype Parsed = Positional(args: seq<string>) | Help | BadFlag

  /** The flag name of `name=value`: everything before the first '='. */
  function NameBeforeValue(s: string): (r: string)
    ensures |r| <= |s| && r == s[..|r|]
    ensures forall i :: 0 <= i < |r| ==> r[i] != '='
    ensures |r| < |s| ==> s[|r|] == '='
  {
    if s == [] || s[0] == '=' then [] else [s[0]] + NameBeforeValue(s[1..])
  }

  /** The two names the flag package answers with its usage text. */
  predicate IsHelpName(name: string) {
    name == "help" || name == "h"
  }

  /** An argument the parser takes as the first positional one: anything shorter
      than two characters or not starting with '-'. */
  predicate IsPlain(arg: string) {
    |arg| < 2 || arg[0] != '-'
  }

  /** One step of the flag parser on the first argument. `--` ends the flags and
      is dropped. A dash or '=' right after the dashes is bad flag syntax. Every
      other flag is undefined, except `h` and `help` (with or without a value). */
  function ParseFlags(argv: seq<string>): (r: Parsed)
    ensures r.Positional? <==> argv == [] || IsPlain(argv[0]) || argv[0] == "--"
    ensures r.Positional? ==> r.args == argv || (argv != [] && argv[0] == "--" && r.args == argv[1..])
  {
    if argv == [] || IsPlain(argv[0]) then Positional(argv)
    else if argv[0] == "--" then Positional(argv[1..])
    else
      var arg := argv[0];
      var name := if arg[1] == '-' then arg[2..] else arg[1..];
      if name == [] || name[0] == '-' || name[0] == '=' then BadFlag
      else if IsHelpName(NameBeforeValue(name)) then Help
      else BadFlag
  }

  /** Arguments that do not start with a flag pass through unchanged, flags
      after the first path included. */
  lemma PlainArgumentsPassThrough(argv: seq<string>)
    requires argv != [] && IsPlain(argv[0])
    ensures ParseFlags(argv) == Positional(argv)
  {
  }

  /** `-h` asks for help, whatever follows it. */
  lemma ShortHelpFlag(rest: seq<string>)
    ensures ParseFlags(["-h"] + rest) == Help
  {
    assert (["-h"] + rest)[0] == "-h";
    assert "-h"[1..] == "h";
    assert NameBeforeValue("h") == "h" by {
      assert NameBeforeValue("h"[1..]) == [];
    }
  }

  /** So does `--help`. */
  lemma LongHelpFlag(rest: seq<string>)
    ensures ParseFlags(["--help"] + rest) == Help
  {
    var name := "help";
    assert (["--help"] + rest)[0] == "--help";
    assert "--help"[2..] == name;
    assert NameBeforeValue(name) == name;
  }

  /** And `-help=false`: the value is cut off before the name is looked up. */
  lemma HelpFlagWithValue(rest: seq<string>)
    ensures ParseFlags(["-help=false"] + rest) == Help
  {
    var name := "help=false";
    assert (["-help=false"] + rest)[0] == "-help=false";
    assert "-help=false"[1..] == name;
    var r := NameBeforeValue(name);
    assert name[4] == '=';
    assert r == name[..4];
  }

  /** Any other flag, such as `-v`, is undefined, and an error. */
  lemma UndefinedFlag(rest: seq<string>)
    ensures ParseFlags(["-v"] + rest) == BadFlag
  {
    assert (["-v"] + rest)[0] == "-v";
    assert "-v"[1..] == "v";
    assert NameBeforeValue("v") == "v" by {
      assert NameBeforeValue("v"[1..]) == [];
    }
  }

  /** `--` ends the flags and is dropped, so a path may start with a dash. */
  lemma DoubleDashEndsFlags(rest: seq<string>)
    ensures ParseFlags(["--"] + rest) == Positional(rest)
  {
    assert (["--"] + rest)[0] == "--";
    assert (["--"] + rest)[1..] == rest;
  }
}
