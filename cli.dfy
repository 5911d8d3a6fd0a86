/**
  The command-line scanner `cli_parse_arguments`: a left-to-right pass over
  `argv` that fills in the input path, the output path, the log format and the
  verbosity of the run context. `argv` is modelled as a sequence, so `argc` is
  its length. The diagnostics it writes to stderr are not modelled.
 */
module Cli {
  import opened Strings
  import opened LogAnalyzer

  /** The part of the run context the scanner writes. */
  datatype Settings = Settings(inputPath: string, outputPath: string, logFormat: string, verbose: int)

  /** What the scanner returns, with the settings it leaves behind. */
  datatype Outcome = Outcome(ok: bool, settings: Settings)

  function SettingsOf(ctx: Context): Settings
    reads ctx
  {
    Settings(ctx.inputPath, ctx.outputPath, ctx.logFormat, ctx.verbose)
  }

  /** The settings fit the context's NUL-terminated buffers. */
  predicate Fits(s: Settings) {
    |s.inputPath| < MaxPathLength && |s.outputPath| < MaxPathLength && |s.logFormat| < MaxFormatLength
  }

  predicate IsHelpFlag(arg: string) { arg == "-h" || arg == "--help" }
  predicate IsVersionFlag(arg: string) { arg == "--version" }
  predicate IsOutputFlag(arg: string) { arg == "-o" || arg == "--output" }
  predicate IsFormatFlag(arg: string) { arg == "-f" || arg == "--format" }
  predicate IsVerboseFlag(arg: string) { arg == "-v" || arg == "--verbose" }

  /** An argument the scanner consumes on its own without stopping: a verbosity flag or a path. */
  predicate Simple(arg: string) {
    IsVerboseFlag(arg) || !StartsWithDash(arg)
  }

  /**
    The scan from index `i` with settings `s`: help and version stop it with
    success, an option missing its value or an unknown option stops it with
    failure, and at the end it succeeds iff an input path was given.
   */
  function Scan(argv: seq<string>, i: nat, s: Settings): (r: Outcome)
    requires i <= |argv|
    ensures r.ok ==> |r.settings.inputPath| > 0
    ensures Fits(s) ==> Fits(r.settings)
    ensures r.settings.verbose >= s.verbose
    decreases |argv| - i
  {
    if i == |argv| then Outcome(|s.inputPath| > 0, s)
    else
      var arg := argv[i];
      if IsHelpFlag(arg) then Outcome(true, s.(inputPath := "--help"))
      else if IsVersionFlag(arg) then Outcome(true, s.(inputPath := "--version"))
      else if IsOutputFlag(arg) then
        if i + 1 < |argv| then Scan(argv, i + 2, s.(outputPath := Truncate(argv[i + 1], MaxPathLength - 1)))
        else Outcome(false, s)
      else if IsFormatFlag(arg) then
        if i + 1 < |argv| then Scan(argv, i + 2, s.(logFormat := Truncate(argv[i + 1], MaxFormatLength - 1)))
        else Outcome(false, s)
      else if IsVerboseFlag(arg) then Scan(argv, i + 1, s.(verbose := s.verbose + 1))
      else if StartsWithDash(arg) then Outcome(false, s)
      else Scan(argv, i + 1, s.(inputPath := Truncate(arg, MaxPathLength - 1)))
  }

  /**
    `cli_parse_arguments`. Fewer than two arguments fail without touching the
    context; otherwise the scan starts at index 0, so `argv[0]` is read like
    any other argument.
   */
  method ParseArguments(argv: seq<string>, ctx: Context) returns (ok: bool)
    requires ctx.Valid()
    modifies ctx`inputPath, ctx`outputPath, ctx`logFormat, ctx`verbose
    ensures ctx.Valid()
    ensures |argv| < 2 ==> !ok && unchanged(ctx)
    ensures |argv| >= 2 ==> Outcome(ok, SettingsOf(ctx)) == Scan(argv, 0, old(SettingsOf(ctx)))
  {
    if |argv| < 2 {
      return false;
    }
    var i := 0;
    while i < |argv|
      invariant 0 <= i <= |argv| && ctx.Valid()
      invariant Scan(argv, 0, old(SettingsOf(ctx))) == Scan(argv, i, SettingsOf(ctx))
    {
      var arg := argv[i];
      if IsHelpFlag(arg) {
        ctx.inputPath := "--help";
        return true;
      } else if IsVersionFlag(arg) {
        ctx.inputPath := "--version";
        return true;
      } else if IsOutputFlag(arg) {
        if i + 1 < |argv| {
          ctx.outputPath := Truncate(argv[i + 1], MaxPathLength - 1);
          i := i + 1;
        } else {
          return false;
        }
      } else if IsFormatFlag(arg) {
        if i + 1 < |argv| {
          ctx.logFormat := Truncate(argv[i + 1], MaxFormatLength - 1);
          i := i + 1;
        } else {
          return false;
        }
      } else if IsVerboseFlag(arg) {
        ctx.verbose := ctx.verbose + 1;
      } else if |arg| > 0 && arg[0] == '-' {
        return false;
      } else {
        ctx.inputPath := Truncate(arg, MaxPathLength - 1);
      }
      i := i + 1;
    }
    ok := |ctx.inputPath| > 0;
  }

  /** The effect of one simple argument: a verbosity flag counts, anything else becomes the input path. */
  function Absorb(arg: string, s: Settings): Settings {
    if IsVerboseFlag(arg) then s.(verbose := s.verbose + 1)
    else s.(inputPath := Truncate(arg, MaxPathLength - 1))
  }

  /** The effect of a run of simple arguments, taken left to right. */
  function AbsorbAll(args: seq<string>, s: Settings): Settings {
    if args == [] then s else AbsorbAll(args[1..], Absorb(args[0], s))
  }

  /** The number of verbosity flags among `args`. */
  function CountVerbose(args: seq<string>): nat {
    if args == [] then 0
    else CountVerbose(args[..|args| - 1]) + (if IsVerboseFlag(args[|args| - 1]) then 1 else 0)
  }

  /** The last argument of `args` that is not a verbosity flag, truncated to a path; `default` when there is none. */
  function LastPath(args: seq<string>, default: string): string {
    if args == [] then default
    else if !IsVerboseFlag(args[|args| - 1]) then Truncate(args[|args| - 1], MaxPathLength - 1)
    else LastPath(args[..|args| - 1], default)
  }

  /** Absorbing one more argument at the end. */
  lemma {:induction false} AbsorbAllSnoc(args: seq<string>, arg: string, s: Settings)
    ensures AbsorbAll(args + [arg], s) == Absorb(arg, AbsorbAll(args, s))
  {
    if args != [] {
      assert (args + [arg])[1..] == args[1..] + [arg];
      AbsorbAllSnoc(args[1..], arg, Absorb(args[0], s));
    }
  }

  /**
    A run of simple arguments adds one to the verbosity per verbosity flag,
    leaves the last other argument as the input path, and leaves the output
    path and the format alone.
   */
  lemma {:induction false} AbsorbAllMeaning(args: seq<string>, s: Settings)
    ensures AbsorbAll(args, s).verbose == s.verbose + CountVerbose(args)
    ensures AbsorbAll(args, s).inputPath == LastPath(args, s.inputPath)
    ensures AbsorbAll(args, s).outputPath == s.outputPath && AbsorbAll(args, s).logFormat == s.logFormat
  {
    if args != [] {
      var init := args[..|args| - 1];
      assert args == init + [args[|args| - 1]];
      AbsorbAllSnoc(init, args[|args| - 1], s);
      AbsorbAllMeaning(init, s);
    }
  }

  /** The scan walks over simple arguments without stopping. */
  lemma {:induction false} ScanSkipsSimple(argv: seq<string>, i: nat, j: nat, s: Settings)
    requires i <= j <= |argv|
    requires forall k :: i <= k < j ==> Simple(argv[k])
    ensures Scan(argv, i, s) == Scan(argv, j, AbsorbAll(argv[i..j], s))
    decreases j - i
  {
    if i < j {
      assert argv[i..j][1..] == argv[i + 1..j];
      ScanSkipsSimple(argv, i + 1, j, Absorb(argv[i], s));
    }
  }

  /**
    With only paths and verbosity flags, the scan succeeds iff the last path
    (`argv[0]` included) is non-empty; that path is the input and the
    verbosity goes up by the number of flags.
   */
  lemma ScanOfSimpleArguments(argv: seq<string>, s: Settings)
    requires forall k :: 0 <= k < |argv| ==> Simple(argv[k])
    ensures Scan(argv, 0, s).settings == s.(inputPath := LastPath(argv, s.inputPath), verbose := s.verbose + CountVerbose(argv))
    ensures Scan(argv, 0, s).ok <==> |LastPath(argv, s.inputPath)| > 0
  {
    ScanSkipsSimple(argv, 0, |argv|, s);
    assert argv[0..|argv|] == argv;
    AbsorbAllMeaning(argv, s);
  }

  /**
    The program name in `argv[0]` is the input path when no later argument is
    a path.
   */
  lemma ProgramNameIsInput(argv: seq<string>, s: Settings)
    requires |argv| > 0 && !StartsWithDash(argv[0]) && |argv[0]| > 0
    requires forall k :: 1 <= k < |argv| ==> IsVerboseFlag(argv[k])
    ensures Scan(argv, 0, s) == Outcome(true, s.(inputPath := Truncate(argv[0], MaxPathLength - 1), verbose := s.verbose + |argv| - 1))
  {
    ScanSkipsSimple(argv, 0, 1, s);
    ScanSkipsSimple(argv, 1, |argv|, AbsorbAll(argv[0..1], s));
    assert argv[0..1] == [argv[0]];
    var t := AbsorbAll([argv[0]], s);
    assert t == Absorb(argv[0], s);
    AbsorbAllMeaning(argv[1..|argv|], t);
    LastPathOfFlags(argv[1..|argv|], t.inputPath);
    CountOfFlags(argv[1..|argv|]);
  }

  /** Only verbosity flags: the path stays the default. */
  lemma {:induction false} LastPathOfFlags(args: seq<string>, default: string)
    requires forall k :: 0 <= k < |args| ==> IsVerboseFlag(args[k])
    ensures LastPath(args, default) == default
  {
    if args != [] {
      LastPathOfFlags(args[..|args| - 1], default);
    }
  }

  /** Only verbosity flags: each one counts. */
  lemma {:induction false} CountOfFlags(args: seq<string>)
    requires forall k :: 0 <= k < |args| ==> IsVerboseFlag(args[k])
    ensures CountVerbose(args) == |args|
  {
    if args != [] {
      CountOfFlags(args[..|args| - 1]);
    }
  }

  /**
    The first help or version flag the scan reaches ends it with success and
    that flag's name as the input path; the arguments after it are never read.
    The scan may start anywhere, so this applies after the value of an earlier
    option too (see OptionTakesNextArgument).
   */
  lemma HelpOrVersionStops(argv: seq<string>, i: nat, j: nat, s: Settings)
    requires i <= j < |argv| && (IsHelpFlag(argv[j]) || IsVersionFlag(argv[j]))
    requires forall k :: i <= k < j ==> Simple(argv[k])
    ensures Scan(argv, i, s) == Outcome(true, AbsorbAll(argv[i..j], s).(
              inputPath := if IsHelpFlag(argv[j]) then "--help" else "--version"))
    ensures Scan(argv, i, s).settings.verbose == s.verbose + CountVerbose(argv[i..j])
    ensures Scan(argv, i, s).settings.outputPath == s.outputPath && Scan(argv, i, s).settings.logFormat == s.logFormat
  {
    ScanSkipsSimple(argv, i, j, s);
    AbsorbAllMeaning(argv[i..j], s);
  }

  /** An unknown option, reached by the scan before any stopping flag, fails it. */
  lemma UnknownOptionFails(argv: seq<string>, i: nat, j: nat, s: Settings)
    requires i <= j < |argv| && StartsWithDash(argv[j]) && !Simple(argv[j])
    requires !IsHelpFlag(argv[j]) && !IsVersionFlag(argv[j]) && !IsOutputFlag(argv[j]) && !IsFormatFlag(argv[j])
    requires forall k :: i <= k < j ==> Simple(argv[k])
    ensures !Scan(argv, i, s).ok
  {
    ScanSkipsSimple(argv, i, j, s);
  }

  /** An output or format option that the scan reaches as the last argument has no value, and the scan fails. */
  lemma MissingValueFails(argv: seq<string>, i: nat, s: Settings)
    requires i < |argv| && (IsOutputFlag(argv[|argv| - 1]) || IsFormatFlag(argv[|argv| - 1]))
    requires forall k :: i <= k < |argv| - 1 ==> Simple(argv[k])
    ensures !Scan(argv, i, s).ok
  {
    ScanSkipsSimple(argv, i, |argv| - 1, s);
  }

  /**
    An output or format option reached by the scan takes the next argument as
    its value whatever it looks like, and the scan resumes after the value: a
    value such as "-v" or "--help" is neither counted nor obeyed.
   */
  lemma OptionTakesNextArgument(argv: seq<string>, i: nat, j: nat, s: Settings)
    requires i <= j && j + 1 < |argv| && (IsOutputFlag(argv[j]) || IsFormatFlag(argv[j]))
    requires forall k :: i <= k < j ==> Simple(argv[k])
    ensures var t := AbsorbAll(argv[i..j], s);
            Scan(argv, i, s) == Scan(argv, j + 2,
              if IsOutputFlag(argv[j]) then t.(outputPath := Truncate(argv[j + 1], MaxPathLength - 1))
              else t.(logFormat := Truncate(argv[j + 1], MaxFormatLength - 1)))
  {
    ScanSkipsSimple(argv, i, j, s);
  }

  /**
    `-f -o`: the `-o` is the value of `-f`, not an option missing its value, so
    the scan goes on past it and succeeds on the program name.
   */
  lemma OptionValueIsNotAnOption(prog: string, s: Settings)
    requires |prog| > 0 && !StartsWithDash(prog)
    ensures var argv := [prog, "-f", "-o"];
            Scan(argv, 0, s) == Outcome(true, s.(inputPath := Truncate(prog, MaxPathLength - 1), logFormat := "-o"))
  {
    var argv := [prog, "-f", "-o"];
    OptionTakesNextArgument(argv, 0, 1, s);
    assert argv[0..1] == [prog];
    assert AbsorbAll([prog], s) == Absorb(prog, s);
  }

  /** A help flag after the value of an output option still stops the scan. */
  lemma HelpAfterOptionValue(prog: string, value: string, s: Settings)
    requires !StartsWithDash(prog)
    ensures var argv := [prog, "-o", value, "--help"];
            Scan(argv, 0, s).ok && Scan(argv, 0, s).settings.inputPath == "--help"
  {
    var argv := [prog, "-o", value, "--help"];
    OptionTakesNextArgument(argv, 0, 1, s);
    var t := AbsorbAll(argv[0..1], s).(outputPath := Truncate(value, MaxPathLength - 1));
    HelpOrVersionStops(argv, 3, 3, t);
  }
}
