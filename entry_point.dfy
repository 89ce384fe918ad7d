/**
 * main of main.c: split the command line, look for a help flag, then choose
 * between the legacy batch mode, the advanced command-line mode and the
 * interactive menu.
 *
 * CommandLineToArgvW is a parameter: the argument vector, or None when the
 * call fails. The generators see their environment as parameters too, and
 * the menu its console script.
 */
module EntryPoint {

  import opened Common
  import opened Utils
  import opened CliParser
  import PasswordGen
  import Interactive

  /** The mode main settles on. */
  datatype Mode =
    | Help                              // ShowHelp
    | Batch(length: int)                // GenerateCore(length, TRUE)
    | AdvancedCli(config: PasswordConfig)  // GenerateAdvanced with the parsed settings
    | InteractiveMode                   // RunInteractiveMode

  /** The four spellings of the help flag. */
  predicate IsHelpFlag(arg: seq<char>) {
    arg == "--help" || arg == "-h" || arg == "/?" || arg == "-?"
  }

  /** Some argument after the program name asks for help. */
  predicate HelpRequested(args: seq<seq<char>>) {
    exists k :: 1 <= k < |args| && IsHelpFlag(args[k])
  }

  /** The batch length: the leading number of the argument, or 16 when that is not positive. */
  function BatchLength(arg: seq<char>): int {
    var n := ParseDecimal(arg);
    if n <= 0 then DefaultBatchLength else n
  }

  /**
   * The mode for an argument vector. With no vector or only the program
   * name: the menu. Any help flag wins. Exactly one argument whose first
   * character is not '-': batch. Anything else: the advanced CLI parser.
   */
  function ModeOf(args: Option<seq<CStr>>): (mode: Mode)
    ensures mode.AdvancedCli? ==> PasswordGen.TotalFitsInt(mode.config)
  {
    if args.None? || |args.value| <= 1 then InteractiveMode
    else if HelpRequested(args.value) then Help
    else if |args.value| == 2 && CharAt(args.value[1], 0) != '-' then Batch(BatchLength(args.value[1]))
    else
      ParsedLengthsBounded(args.value, Letter);
      ParsedLengthsBounded(args.value, Number);
      ParsedLengthsBounded(args.value, Symbol);
      AdvancedCli(Parsed(args.value))
  }

  /** What a run of the program produces. */
  datatype Run =
    | HelpShown
    | BatchRun(outcome: PasswordGen.Outcome)
    | AdvancedRun(outcome: PasswordGen.Outcome)
    | InteractiveRun(totals: seq<nat>, requests: seq<PasswordConfig>)

  /** A run of main: the chosen mode carried out in the given environment. */
  function Executed(args: Option<seq<CStr>>, env: PasswordGen.Env, console: seq<Interactive.Read>): Run
  {
    match ModeOf(args)
    case Help => HelpShown
    case Batch(length) => BatchRun(PasswordGen.CoreOutcome(length, true, env))
    case AdvancedCli(config) => AdvancedRun(PasswordGen.AdvancedOutcome(config, env))
    case InteractiveMode =>
      var s := Interactive.RunFrom(Interactive.Start, console);
      InteractiveRun(s.totals, s.requests)
  }

  /** The help scan of main: WStrEquals against each spelling, for every argument after the first. */
  method ScanForHelp(args: seq<CStr>) returns (found: bool)
    ensures found <==> HelpRequested(args)
  {
    var i := 1;
    while i < |args|
      invariant 1 <= i && (i <= |args| || |args| == 0)
      invariant forall k :: 1 <= k < i && k < |args| ==> !IsHelpFlag(args[k])
    {
      var a := WStrEquals(args[i], "--help");
      var b := WStrEquals(args[i], "-h");
      var c := WStrEquals(args[i], "/?");
      var d := WStrEquals(args[i], "-?");
      if a || b || c || d {
        return true;
      }
      i := i + 1;
    }
    return false;
  }

  /** The mode decision of main, written as the C code takes it. */
  method ChooseMode(args: Option<seq<CStr>>) returns (mode: Mode)
    ensures mode == ModeOf(args)
  {
    if args.Some? && |args.value| > 1 {
      var help := ScanForHelp(args.value);
      if help {
        return Help;
      }
    }
    if args.Some? && |args.value| > 1 {
      var argv := args.value;
      var isLegacyBatch := false;
      if |argv| == 2 {
        if CharAt(argv[1], 0) != '-' {
          isLegacyBatch := true;
        }
      }
      if isLegacyBatch {
        var batchLength := SimpleWStrToInt(argv[1]);
        if batchLength <= 0 {
          batchLength := DefaultBatchLength;
        }
        mode := Batch(batchLength);
      } else {
        var config := ParseArguments(argv);
        mode := AdvancedCli(config);
      }
    } else {
      mode := InteractiveMode;
    }
  }

  /** main: choose the mode, carry it out, and exit with 0. */
  method WinPass(args: Option<seq<CStr>>, env: PasswordGen.Env, console: seq<Interactive.Read>)
    returns (exitCode: int, run: Run)
    ensures exitCode == 0
    ensures run == Executed(args, env, console)
  {
    var mode := ChooseMode(args);
    match mode {
      case Help =>
        run := HelpShown;
      case Batch(length) =>
        var out := PasswordGen.GenerateCore(length, true, env);
        run := BatchRun(out);
      case AdvancedCli(config) =>
        var out := PasswordGen.GenerateAdvanced(config, env);
        run := AdvancedRun(out);
      case InteractiveMode =>
        var totals, requests, _ := Interactive.RunInteractiveMode(console);
        run := InteractiveRun(totals, requests);
    }
    exitCode := 0;
  }

  /** With no argument vector, or only the program name, main runs the menu; otherwise it never does. */
  lemma InteractiveWithoutArguments(args: Option<seq<CStr>>)
    ensures ModeOf(args) == InteractiveMode <==> args.None? || |args.value| <= 1
  {
  }

  /** A help flag anywhere after the program name wins over every other mode. */
  lemma HelpWins(args: seq<CStr>, k: nat)
    requires 1 <= k < |args| && IsHelpFlag(args[k])
    ensures ModeOf(Some(args)) == Help
  {
  }

  /**
   * Batch mode is chosen exactly for one argument that is not a help flag
   * and does not start with '-'; its length is then between 1 and 100000.
   */
  lemma BatchModeChosen(args: Option<seq<CStr>>)
    ensures ModeOf(args).Batch? <==>
            args.Some? && |args.value| == 2 && !IsHelpFlag(args.value[1]) && CharAt(args.value[1], 0) != '-'
    ensures ModeOf(args).Batch? ==> 1 <= ModeOf(args).length <= MaxIntParseValue
  {
    if args.Some? && |args.value| == 2 && !IsHelpFlag(args.value[1]) {
      assert !HelpRequested(args.value);
    }
    if ModeOf(args).Batch? {
      ParseDecimalRange(args.value[1]);
    }
  }

  /** The batch length falls back to 16 exactly when the argument has no positive leading number (or is 16). */
  lemma BatchLengthFallback(arg: seq<char>)
    ensures BatchLength(arg) == DefaultBatchLength <==> ParseDecimal(arg) == 0 || ParseDecimal(arg) == DefaultBatchLength
    ensures BatchLength(arg) != DefaultBatchLength ==> BatchLength(arg) == ParseDecimal(arg)
  {
  }

  /**
   * In the advanced mode the settings are those of the argument parser, each
   * length below 1024, so GenerateAdvanced gets a total that fits in an int.
   */
  lemma AdvancedUsesParsedSettings(args: Option<seq<CStr>>)
    requires ModeOf(args).AdvancedCli?
    ensures args.Some? && ModeOf(args).config == Parsed(args.value)
    ensures forall cat :: LengthOf(ModeOf(args).config, cat) < LengthLimit
  {
    forall cat ensures LengthOf(ModeOf(args).config, cat) < LengthLimit {
      ParsedLengthsBounded(args.value, cat);
    }
  }

  /** An empty single argument still selects batch mode, with the default length 16. */
  lemma EmptyArgumentIsBatch(name: CStr)
    ensures ModeOf(Some([name, ""])) == Batch(DefaultBatchLength)
  {
    assert !HelpRequested([name, ""]);
    assert LeadingDigits("") == "";
  }

  /** "-5" is not a batch length: it goes to the parser, which ignores it, so the defaults are used. */
  lemma NegativeLengthGoesToParser(name: CStr)
    ensures ModeOf(Some([name, "-5"])) == AdvancedCli(DefaultConfig)
  {
    assert !HelpRequested([name, "-5"]);
    assert Classify("-5") == Unrecognised;
    assert [name, "-5"][..1] == [name];
    assert Parsed([name, "-5"]) == ApplyArgument(Parsed([name]), "-5");
  }

  /** A batch length below 4 is accepted by main and then rejected by GenerateCore. */
  lemma ShortBatchRejected(name: CStr, env: PasswordGen.Env)
    ensures Executed(Some([name, "3"]), env, []) == BatchRun(PasswordGen.TooShort)
  {
    assert !HelpRequested([name, "3"]);
    assert LeadingDigits("3") == "3";
    assert ParseDecimal("3") == 3;
  }
}
