/**
 * ParseArguments of src/cli_parser.c: a loop over the arguments after the
 * program name that updates a PasswordConfig. Each argument is classified by
 * the same if-chain as the C code; the loop is proved equal to a left fold of
 * that classification, about which the promised properties are proved.
 */
module CliParser {

  import opened Common
  import opened Utils

  /** The three character categories. */
  datatype Category = Letter | Number | Symbol

  /** How the if-chain reads one argument. */
  datatype ArgKind = Disable(category: Category) | SetLength(category: Category) | Unrecognised

  function DisableFlag(cat: Category): CStr {
    match cat
    case Letter => "--no-letters"
    case Number => "--no-numbers"
    case Symbol => "--no-symbols"
  }

  function LongPrefix(cat: Category): CStr {
    match cat
    case Letter => "--letters="
    case Number => "--numbers="
    case Symbol => "--symbols="
  }

  function ShortPrefix(cat: Category): CStr {
    match cat
    case Letter => "-l="
    case Number => "-n="
    case Symbol => "-s="
  }

  /** Whether arg carries a length for cat, in the long or the short spelling. */
  predicate IsLengthArg(arg: seq<char>, cat: Category) {
    StartsWith(arg, LongPrefix(cat)) || StartsWith(arg, ShortPrefix(cat))
  }

  /**
   * The if-chain of the loop body: the three exact disable flags first, then
   * the letters, numbers and symbols length prefixes; anything else is unrecognised.
   */
  function Classify(arg: seq<char>): ArgKind {
    if arg == DisableFlag(Letter) then Disable(Letter)
    else if arg == DisableFlag(Number) then Disable(Number)
    else if arg == DisableFlag(Symbol) then Disable(Symbol)
    else if IsLengthArg(arg, Letter) then SetLength(Letter)
    else if IsLengthArg(arg, Number) then SetLength(Number)
    else if IsLengthArg(arg, Symbol) then SetLength(Symbol)
    else Unrecognised
  }

  function Uses(c: PasswordConfig, cat: Category): bool {
    match cat
    case Letter => c.useLetters
    case Number => c.useNumbers
    case Symbol => c.useSymbols
  }

  function LengthOf(c: PasswordConfig, cat: Category): nat {
    match cat
    case Letter => c.letterLength
    case Number => c.numberLength
    case Symbol => c.symbolLength
  }

  /** A length value is taken only when it lies in [0, 1024). */
  predicate InRange(v: int) {
    0 <= v < LengthLimit
  }

  /** Set the length of cat, leaving the other five fields alone. */
  function WithLength(c: PasswordConfig, cat: Category, v: nat): (r: PasswordConfig)
    ensures LengthOf(r, cat) == v
    ensures forall other :: other != cat ==> LengthOf(r, other) == LengthOf(c, other)
    ensures forall any :: Uses(r, any) == Uses(c, any)
  {
    match cat
    case Letter => c.(letterLength := v)
    case Number => c.(numberLength := v)
    case Symbol => c.(symbolLength := v)
  }

  /** Clear the flag of cat, leaving the other five fields alone. */
  function WithoutCategory(c: PasswordConfig, cat: Category): (r: PasswordConfig)
    ensures !Uses(r, cat)
    ensures forall other :: other != cat ==> Uses(r, other) == Uses(c, other)
    ensures forall any :: LengthOf(r, any) == LengthOf(c, any)
  {
    match cat
    case Letter => c.(useLetters := false)
    case Number => c.(useNumbers := false)
    case Symbol => c.(useSymbols := false)
  }

  /**
   * One iteration of the loop: a disable flag clears its category; a length
   * argument sets its length when the value after '=' is in range; any other
   * argument, or a length out of range, changes nothing.
   */
  function ApplyArgument(c: PasswordConfig, arg: seq<char>): (r: PasswordConfig)
    ensures forall cat :: Uses(r, cat) ==> Uses(c, cat)
    ensures forall cat :: Classify(arg) != SetLength(cat) ==> LengthOf(r, cat) == LengthOf(c, cat)
    ensures Classify(arg) == Unrecognised ==> r == c
  {
    match Classify(arg)
    case Disable(cat) => WithoutCategory(c, cat)
    case SetLength(cat) =>
      var v := ValueAfterEquals(arg);
      if InRange(v) then WithLength(c, cat, v) else c
    case Unrecognised => c
  }

  /** The configuration after the loop has handled args[1 ..]; args[0], the program name, is skipped. */
  function Parsed(args: seq<seq<char>>): PasswordConfig
  {
    if |args| <= 1 then DefaultConfig
    else ApplyArgument(Parsed(args[..|args| - 1]), args[|args| - 1])
  }

  /** The two prefix tests joined by C's short-circuit ||. */
  method IsLengthArgument(arg: CStr, cat: Category) returns (matches: bool)
    ensures matches == IsLengthArg(arg, cat)
  {
    matches := WStrStartsWith(arg, LongPrefix(cat));
    if !matches {
      matches := WStrStartsWith(arg, ShortPrefix(cat));
    }
  }

  /** ParseArguments(args, count, config): defaults first, then one pass over args[1 ..]. */
  method ParseArguments(args: seq<CStr>) returns (config: PasswordConfig)
    ensures config == Parsed(args)
  {
    config := DefaultConfig;
    var i := 1;
    while i < |args|
      invariant 1 <= i && (i <= |args| || |args| == 0)
      invariant |args| > 0 ==> config == Parsed(args[..i])
      invariant |args| == 0 ==> config == DefaultConfig
    {
      var arg := args[i];
      assert args[..i + 1][..i] == args[..i];
      var isFlag := WStrEquals(arg, DisableFlag(Letter));
      if isFlag {
        config := config.(useLetters := false);
      } else {
        isFlag := WStrEquals(arg, DisableFlag(Number));
        if isFlag {
          config := config.(useNumbers := false);
        } else {
          isFlag := WStrEquals(arg, DisableFlag(Symbol));
          if isFlag {
            config := config.(useSymbols := false);
          } else {
            var isLength := IsLengthArgument(arg, Letter);
            if isLength {
              var val := ExtractValueFromArg(arg);
              if val >= 0 && val < 1024 { config := config.(letterLength := val); }
            } else {
              isLength := IsLengthArgument(arg, Number);
              if isLength {
                var val := ExtractValueFromArg(arg);
                if val >= 0 && val < 1024 { config := config.(numberLength := val); }
              } else {
                isLength := IsLengthArgument(arg, Symbol);
                if isLength {
                  var val := ExtractValueFromArg(arg);
                  if val >= 0 && val < 1024 { config := config.(symbolLength := val); }
                }
              }
            }
          }
        }
      }
      i := i + 1;
    }
    if |args| > 0 {
      assert args[..i] == args;
    }
  }

  /** Every length the parser leaves in the configuration is in [0, 1024). */
  lemma {:induction false} ParsedLengthsBounded(args: seq<seq<char>>, cat: Category)
    ensures LengthOf(Parsed(args), cat) < LengthLimit
  {
    if |args| > 1 {
      ParsedLengthsBounded(args[..|args| - 1], cat);
    }
  }

  /** Only the exact disable flag of a category clears it. */
  lemma DisableOnlyByFlag(arg: seq<char>, cat: Category)
    ensures Classify(arg) == Disable(cat) <==> arg == DisableFlag(cat)
  {
  }

  /**
   * A category stays enabled exactly when no argument after the program name
   * is its disable flag; so the flags do not depend on the order of the arguments.
   */
  lemma {:induction false} FlagIffNotDisabled(args: seq<seq<char>>, cat: Category)
    ensures Uses(Parsed(args), cat) <==> forall k :: 1 <= k < |args| ==> args[k] != DisableFlag(cat)
  {
    if |args| > 1 {
      var init := args[..|args| - 1];
      FlagIffNotDisabled(init, cat);
      DisableOnlyByFlag(args[|args| - 1], cat);
      assert forall k :: 1 <= k < |init| ==> init[k] == args[k];
    }
  }

  /** arg is a length argument for cat whose value is accepted. */
  predicate SetsLength(arg: seq<char>, cat: Category) {
    Classify(arg) == SetLength(cat) && InRange(ValueAfterEquals(arg))
  }

  /** The length of cat after one argument: set when the argument sets it, kept otherwise. */
  lemma LengthAfterArgument(c: PasswordConfig, arg: seq<char>, cat: Category)
    ensures LengthOf(ApplyArgument(c, arg), cat) == if SetsLength(arg, cat) then ValueAfterEquals(arg) else LengthOf(c, cat)
  {
  }

  /** No argument after position k sets the length of cat. */
  predicate NoLaterSetting(args: seq<seq<char>>, k: nat, cat: Category) {
    forall m :: k < m < |args| ==> !SetsLength(args[m], cat)
  }

  /** With no accepted length argument for a category, its default length stays. */
  lemma {:induction false} DefaultLengthKept(args: seq<seq<char>>, cat: Category)
    requires forall k :: 1 <= k < |args| ==> !SetsLength(args[k], cat)
    ensures LengthOf(Parsed(args), cat) == LengthOf(DefaultConfig, cat)
  {
    if |args| > 1 {
      var n := |args| - 1;
      var init := args[..n];
      assert forall k :: 1 <= k < |init| ==> init[k] == args[k];
      DefaultLengthKept(init, cat);
      assert Parsed(args) == ApplyArgument(Parsed(init), args[n]);
      LengthAfterArgument(Parsed(init), args[n], cat);
    }
  }

  /**
   * The length of a category is the value of the last accepted length
   * argument for it: later arguments that are not accepted do not undo it.
   */
  lemma {:induction false} LastLengthWins(args: seq<seq<char>>, cat: Category, k: nat)
    requires 1 <= k < |args| && SetsLength(args[k], cat) && NoLaterSetting(args, k, cat)
    ensures LengthOf(Parsed(args), cat) == ValueAfterEquals(args[k])
  {
    var n := |args| - 1;
    var init := args[..n];
    assert Parsed(args) == ApplyArgument(Parsed(init), args[n]);
    LengthAfterArgument(Parsed(init), args[n], cat);
    if k < n {
      assert !SetsLength(args[n], cat);
      assert init[k] == args[k];
      assert NoLaterSetting(init, k, cat);
      LastLengthWins(init, cat, k);
    }
  }

  /** The first argument, the program name, has no effect. */
  lemma {:induction false} ProgramNameIgnored(args: seq<seq<char>>, name: seq<char>)
    requires |args| >= 1
    ensures Parsed(args) == Parsed([name] + args[1..])
  {
    if |args| > 1 {
      var other := [name] + args[1..];
      ProgramNameIgnored(args[..|args| - 1], name);
      assert other[..|other| - 1] == [name] + args[..|args| - 1][1..];
    }
  }

  /** Arguments the parser does not recognise are skipped without effect. */
  lemma {:induction false} UnrecognisedSkipped(args: seq<seq<char>>, arg: seq<char>)
    requires |args| >= 1 && Classify(arg) == Unrecognised
    ensures Parsed(args + [arg]) == Parsed(args)
  {
    assert (args + [arg])[..|args|] == args;
  }
}
