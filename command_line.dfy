/** The command line of the path tracer (src/Main.cpp, `main`, lines 426-436):
    a left-to-right scan that takes `-s <path>` or `--scene <path>` as the
    scene file and stops at any other argument that starts with a dash. */
module CommandLine {
  import opened Common

  /** Why an invocation is refused. `arg` is the offending argument. */
  datatype CliError =
    | UnknownOption(arg: string)   // a dash-prefixed argument that is not a scene flag
    | MissingValue(arg: string)    // a scene flag with nothing after it

  predicate IsSceneFlag(a: string)
  {
    a == "-s" || a == "--scene"
  }

  /** `arg[0] == '-'`; on an empty argument `arg[0]` is the terminating
      NUL character, so an empty argument is not dash-prefixed. */
  predicate IsDashed(a: string)
  {
    |a| > 0 && a[0] == '-'
  }

  /** The arguments after the program name (`argv[1..argc]`). */
  function Arguments(argv: seq<string>): (args: seq<string>)
    ensures |argv| > 0 ==> argv == [argv[0]] + args
  {
    if |argv| == 0 then [] else argv[1..]
  }

  /** The meaning of the scan over `args`, starting with `sceneFile` as the
      scene path chosen so far. A successful scan yields the final scene path;
      the empty path means "no scene given". */
  function Scan(args: seq<string>, sceneFile: string): (r: Result<string, CliError>)
    ensures r.Success? ==> r.value == sceneFile || r.value in args
    ensures r.Failure? ==> r.error.arg in args && IsDashed(r.error.arg)
    ensures r.Failure? && r.error.MissingValue? ==> IsSceneFlag(r.error.arg)
    decreases |args|
  {
    if args == [] then Success(sceneFile)
    else if IsSceneFlag(args[0]) then
      if |args| == 1 then Failure(MissingValue(args[0]))
      else Scan(args[2..], args[1])
    else if IsDashed(args[0]) then Failure(UnknownOption(args[0]))
    else Scan(args[1..], sceneFile)
  }

  /** The argument loop of `main`, with the index advanced past a flag's
      value. A flag with no value is reported instead of being read past the
      end of `argv` (see `ScanAsWritten`). */
  method ParseArgs(argv: seq<string>) returns (r: Result<string, CliError>)
    ensures r == Scan(Arguments(argv), "")
  {
    var args := Arguments(argv);
    var sceneFile := "";
    var i := 0;
    while i < |args|
      invariant 0 <= i <= |args|
      invariant Scan(args[i..], sceneFile) == Scan(args, "")
    {
      var arg := args[i];
      if arg == "-s" || arg == "--scene" {
        if i + 1 == |args| {
          return Failure(MissingValue(arg));
        }
        assert args[i..][2..] == args[i + 2..];
        i := i + 1;
        sceneFile := args[i];
      } else if |arg| > 0 && arg[0] == '-' {
        return Failure(UnknownOption(arg));
      } else {
        assert args[i..][1..] == args[i + 1..];
      }
      i := i + 1;
    }
    assert args[i..] == [];
    r := Success(sceneFile);
  }

  /** Scanning a prefix that ends cleanly and then the rest is the same as
      scanning the whole; an unknown option in the prefix ends the scan there. */
  lemma {:induction false} ScanAppend(a: seq<string>, b: seq<string>, f: string)
    ensures Scan(a, f).Success? ==> Scan(a + b, f) == Scan(b, Scan(a, f).value)
    ensures Scan(a, f).Failure? && Scan(a, f).error.UnknownOption? ==> Scan(a + b, f) == Scan(a, f)
    decreases |a|
  {
    if a == [] {
      assert a + b == b;
    } else if IsSceneFlag(a[0]) {
      if |a| > 1 {
        assert (a + b)[2..] == a[2..] + b;
        ScanAppend(a[2..], b, a[1]);
      }
    } else if !IsDashed(a[0]) {
      assert (a + b)[1..] == a[1..] + b;
      ScanAppend(a[1..], b, f);
    }
  }

  /** A later `-s`/`--scene` overrides whatever path was chosen before it. */
  lemma LastSceneFlagWins(a: seq<string>, flag: string, path: string, f: string)
    requires Scan(a, f).Success?
    requires IsSceneFlag(flag)
    ensures Scan(a + [flag, path], f) == Success(path)
  {
    ScanAppend(a, [flag, path], f);
    assert [flag, path][2..] == [];
  }

  /** An argument that does not start with a dash, met where an option is
      expected, is skipped. */
  lemma PlainArgumentIgnored(a: seq<string>, p: string, b: seq<string>, f: string)
    requires Scan(a, f).Success?
    requires !IsDashed(p)
    ensures Scan(a + [p] + b, f) == Scan(a + b, f)
  {
    ScanAppend(a, [p] + b, f);
    ScanAppend(a, b, f);
    assert a + [p] + b == a + ([p] + b);
    assert ([p] + b)[1..] == b;
  }

  /** Any other dash-prefixed argument met where an option is expected ends
      the scan with "Unknown option", whatever follows it. */
  lemma UnknownOptionStops(a: seq<string>, x: string, b: seq<string>, f: string)
    requires Scan(a, f).Success?
    requires IsDashed(x) && !IsSceneFlag(x)
    ensures Scan(a + [x] + b, f) == Failure(UnknownOption(x))
  {
    ScanAppend(a, [x] + b, f);
    assert a + [x] + b == a + ([x] + b);
  }

  /** A scene flag as the last argument is a malformed invocation. */
  lemma DanglingSceneFlagRejected(a: seq<string>, flag: string, f: string)
    requires Scan(a, f).Success?
    requires IsSceneFlag(flag)
    ensures Scan(a + [flag], f) == Failure(MissingValue(flag))
  {
    ScanAppend(a, [flag], f);
  }

  /** The argument after a scene flag is taken as the path even when it
      starts with a dash: `-s -x` selects the file "-x". */
  lemma FlagValueIsNeverAnOption(a: seq<string>, flag: string, path: string, b: seq<string>, f: string)
    requires Scan(a, f).Success?
    requires IsSceneFlag(flag)
    ensures Scan(a + [flag, path] + b, f) == Scan(b, path)
  {
    ScanAppend(a, [flag, path] + b, f);
    assert a + [flag, path] + b == a + ([flag, path] + b);
    assert ([flag, path] + b)[2..] == b;
  }

  // ---------------------------------------------------------------------
  // The loop as written: `sceneFile = argv[++i]` with no bound check.

  /** What the loop of src/Main.cpp:428-436 does when run as written. When a
      scene flag is the last argument, `argv[++i]` reads `argv[argc]`, which
      the C runtime sets to a null pointer, and builds a `std::string` from it. */
  datatype AsWritten = Parsed(sceneFile: string) | Rejected(arg: string) | ReadsNullArgument

  function ScanAsWritten(args: seq<string>, sceneFile: string): (r: AsWritten)
    ensures r.Parsed? ==> r.sceneFile == sceneFile || r.sceneFile in args
    ensures r.Rejected? ==> r.arg in args && IsDashed(r.arg) && !IsSceneFlag(r.arg)
    ensures r.ReadsNullArgument? ==> |args| > 0 && IsSceneFlag(args[|args| - 1])
    decreases |args|
  {
    if args == [] then Parsed(sceneFile)
    else if IsSceneFlag(args[0]) then
      if |args| == 1 then ReadsNullArgument
      else ScanAsWritten(args[2..], args[1])
    else if IsDashed(args[0]) then Rejected(args[0])
    else ScanAsWritten(args[1..], sceneFile)
  }

  /** The loop as written reads the null `argv[argc]` exactly on the
      invocations that `Scan` rejects as missing a value, and agrees with
      `Scan` on every other invocation. */
  lemma {:induction false} AsWrittenDiffersOnlyOnDanglingFlag(args: seq<string>, f: string)
    ensures ScanAsWritten(args, f) == ReadsNullArgument
        <==> Scan(args, f).Failure? && Scan(args, f).error.MissingValue?
    ensures Scan(args, f).Success? ==> ScanAsWritten(args, f) == Parsed(Scan(args, f).value)
    ensures Scan(args, f).Failure? && Scan(args, f).error.UnknownOption?
        ==> ScanAsWritten(args, f) == Rejected(Scan(args, f).error.arg)
    decreases |args|
  {
    if args != [] {
      if IsSceneFlag(args[0]) {
        if |args| > 1 {
          AsWrittenDiffersOnlyOnDanglingFlag(args[2..], args[1]);
        }
      } else if !IsDashed(args[0]) {
        AsWrittenDiffersOnlyOnDanglingFlag(args[1..], f);
      }
    }
  }

  /** `pathtracer --scene` reaches the null read. */
  lemma DanglingFlagReadsNull()
    ensures ScanAsWritten(Arguments(["pathtracer", "--scene"]), "") == ReadsNullArgument
    ensures Scan(Arguments(["pathtracer", "--scene"]), "") == Failure(MissingValue("--scene"))
  {
  }
}
