/**
 * RunInteractiveMode of src/interactive.c: a menu loop over six local
 * settings, a running flag and the 32-byte input buffer.
 *
 * The console is a script of reads. Each read is a line with its CR LF
 * already stripped, or a failed read. When the script runs out, further reads
 * fail, and the loop stops there: the C loop would go on waiting for input.
 * What the loop shows and asks for is recorded as a trace. That trace holds
 * the total length shown on each round and the settings of each "Generate"
 * request; PasswordGen.AdvancedOutcome says what such a request produces.
 *
 * The script holds only the menu's own reads: the choice and the length
 * prompt. GenerateAdvanced also reads one line for its "Press Enter" pause
 * after the no-category error, the too-short error and a generated password
 * (not after the memory, context or random errors); that read is not in the
 * script, so a script line that the program would spend on such a pause is
 * here read as the next menu choice.
 */
module Interactive {

  import opened Common
  import opened Utils
  import opened CliParser
  import PasswordGen

  /** One ConsoleRead: a line without its CR LF, or a failed read. */
  type Read = Option<CStr>

  /** The loop's state: the six settings, the running flag and the contents of inputBuf. */
  datatype Menu = Menu(config: PasswordConfig, running: bool, inputBuf: CStr)

  /** Before the first round: the default settings; inputBuf is written before it is first read. */
  const Start := Menu(DefaultConfig, true, "")

  /** What a ConsoleRead call leaves: the buffer, the count it returns and the reads still to come. */
  datatype ReadOutcome = ReadOutcome(buffer: CStr, count: nat, rest: seq<Read>)

  /**
   * ConsoleRead(inputBuf, sizeof(inputBuf)): a line replaces the buffer and
   * its length is returned (an empty line leaves an empty buffer and returns
   * 0); a failed read returns 0 and leaves the buffer as it was.
   */
  function ConsoleRead(inputBuf: CStr, input: seq<Read>): (r: ReadOutcome)
    ensures r.count > 0 <==> input != [] && input[0].Some? && input[0].value != []
    ensures r.count > 0 ==> r.buffer == input[0].value && r.count == |r.buffer|
    ensures input != [] && input[0].Some? ==> r.buffer == input[0].value
    ensures (input == [] || input[0].None?) ==> r.buffer == inputBuf
    ensures input != [] ==> r.rest == input[1..]
  {
    if input == [] then ReadOutcome(inputBuf, 0, [])
    else match input[0]
      case None => ReadOutcome(inputBuf, 0, input[1..])
      case Some(line) => ReadOutcome(line, |line|, input[1..])
  }

  /** Flip the flag of one category; nothing else changes, and flipping twice restores it. */
  function Toggle(c: PasswordConfig, cat: Category): (r: PasswordConfig)
    ensures Uses(r, cat) == !Uses(c, cat)
    ensures forall other :: other != cat ==> Uses(r, other) == Uses(c, other)
    ensures forall any :: LengthOf(r, any) == LengthOf(c, any)
  {
    match cat
    case Letter => c.(useLetters := !c.useLetters)
    case Number => c.(useNumbers := !c.useNumbers)
    case Symbol => c.(useSymbols := !c.useSymbols)
  }

  /** The category a menu key acts on: 2 and 5 letters, 3 and 6 numbers, 4 and 7 symbols. */
  function KeyCategory(key: char): Category
    requires '2' <= key <= '7'
  {
    if key == '2' || key == '5' then Letter
    else if key == '3' || key == '6' then Number
    else Symbol
  }

  /** The keys that end the loop. */
  predicate IsExitKey(key: char) {
    key == '8' || key == 'q'
  }

  /** One round's effect: the new state, whether "Generate" was chosen, and the reads left. */
  datatype RoundResult = RoundResult(menu: Menu, generate: bool, rest: seq<Read>)

  /**
   * One round of the loop: read a choice. With nothing read, nothing
   * happens. Key 1 asks for a password; 2-4 toggle a category. 5-7 read
   * a second line, parse it, and take the value when it is below 1024. 8 and
   * q stop; every other key is ignored.
   */
  function Round(m: Menu, input: seq<Read>): (r: RoundResult)
    requires input != []
    ensures |r.rest| < |input|
    ensures r.generate ==> r.menu.config == m.config
  {
    var first := ConsoleRead(m.inputBuf, input);
    var read := m.(inputBuf := first.buffer);
    if first.count == 0 then RoundResult(read, false, first.rest)
    else
      var key := first.buffer[0];
      if key == '1' then RoundResult(read, true, first.rest)
      else if '2' <= key <= '4' then
        RoundResult(read.(config := Toggle(m.config, KeyCategory(key))), false, first.rest)
      else if '5' <= key <= '7' then
        var second := ConsoleRead(first.buffer, first.rest);
        var newLen := ParseDecimal(second.buffer);
        var config := if InRange(newLen) then WithLength(m.config, KeyCategory(key), newLen) else m.config;
        RoundResult(Menu(config, m.running, second.buffer), false, second.rest)
      else if IsExitKey(key) then RoundResult(read.(running := false), false, first.rest)
      else RoundResult(read, false, first.rest)
  }

  /** The trace of a run: the state it ends in, the total shown each round, and the settings of each Generate request. */
  datatype Session = Session(final: Menu, totals: seq<nat>, requests: seq<PasswordConfig>)

  /** The loop from state m: one round after another until the running flag drops or the script runs out. */
  function RunFrom(m: Menu, input: seq<Read>): (s: Session)
    ensures !m.running || input == [] ==> s == Session(m, [], [])
    decreases |input|
  {
    if !m.running || input == [] then Session(m, [], [])
    else
      var r := Round(m, input);
      var tail := RunFrom(r.menu, r.rest);
      Session(tail.final, [TotalLength(m.config)] + tail.totals,
              (if r.generate then [m.config] else []) + tail.requests)
  }

  /** A run from m appended to the trace gathered so far. */
  function Resume(m: Menu, input: seq<Read>, totals: seq<nat>, requests: seq<PasswordConfig>): Session
  {
    var s := RunFrom(m, input);
    Session(s.final, totals + s.totals, requests + s.requests)
  }

  /**
   * A running loop with input left takes one round and carries on from its
   * result, with this round's total and request appended to the trace.
   */
  lemma RunStep(m: Menu, input: seq<Read>, totals: seq<nat>, requests: seq<PasswordConfig>)
    requires m.running && input != []
    ensures var r := Round(m, input);
            Resume(m, input, totals, requests) ==
            Resume(r.menu, r.rest, totals + [TotalLength(m.config)], requests + (if r.generate then [m.config] else []))
  {
    var r := Round(m, input);
    var tail := RunFrom(r.menu, r.rest);
    var asked := if r.generate then [m.config] else [];
    assert RunFrom(m, input) == Session(tail.final, [TotalLength(m.config)] + tail.totals, asked + tail.requests);
    assert totals + ([TotalLength(m.config)] + tail.totals) == (totals + [TotalLength(m.config)]) + tail.totals;
    assert requests + (asked + tail.requests) == (requests + asked) + tail.requests;
  }

  /** The total shown in the settings line: the sum of the enabled lengths. */
  method ShownTotal(c: PasswordConfig) returns (totalLen: nat)
    ensures totalLen == TotalLength(c)
  {
    totalLen := 0;
    if c.useLetters { totalLen := totalLen + c.letterLength; }
    if c.useNumbers { totalLen := totalLen + c.numberLength; }
    if c.useSymbols { totalLen := totalLen + c.symbolLength; }
  }

  /**
   * The prompt of keys 5-7: read a second line into inputBuf and parse it
   * with SimpleStrToInt. After a failed read the buffer still holds the menu line.
   */
  method PromptLength(inputBuf: CStr, input: seq<Read>) returns (newLen: int, buffer: CStr, rest: seq<Read>)
    ensures var read := ConsoleRead(inputBuf, input);
            buffer == read.buffer && rest == read.rest && newLen == ParseDecimal(buffer)
  {
    var read := ConsoleRead(inputBuf, input);
    buffer, rest := read.buffer, read.rest;
    newLen := SimpleStrToInt(buffer);
  }

  /**
   * The body of the while loop after the settings are shown: read the choice
   * and run the switch on it.
   */
  method MenuRound(m: Menu, input: seq<Read>) returns (next: Menu, generate: bool, rest: seq<Read>)
    requires input != []
    ensures RoundResult(next, generate, rest) == Round(m, input)
  {
    var config, running := m.config, m.running;
    generate := false;
    var read := ConsoleRead(m.inputBuf, input);
    var inputBuf := read.buffer;
    rest := read.rest;
    if read.count > 0 {
      var choice := inputBuf[0];
      match choice
      case '1' => generate := true;
      case '2' => config := config.(useLetters := !config.useLetters);
      case '3' => config := config.(useNumbers := !config.useNumbers);
      case '4' => config := config.(useSymbols := !config.useSymbols);
      case '5' =>
        var newLen;
        newLen, inputBuf, rest := PromptLength(inputBuf, rest);
        if newLen >= 0 && newLen < 1024 { config := config.(letterLength := newLen); }
      case '6' =>
        var newLen;
        newLen, inputBuf, rest := PromptLength(inputBuf, rest);
        if newLen >= 0 && newLen < 1024 { config := config.(numberLength := newLen); }
      case '7' =>
        var newLen;
        newLen, inputBuf, rest := PromptLength(inputBuf, rest);
        if newLen >= 0 && newLen < 1024 { config := config.(symbolLength := newLen); }
      case '8' => running := false;
      case 'q' => running := false;
      case _ =>
    }
    next := Menu(config, running, inputBuf);
  }

  /**
   * RunInteractiveMode: the while (running) loop. Each round shows the total
   * of the enabled lengths, then reads and handles one choice.
   */
  method RunInteractiveMode(input: seq<Read>) returns (totals: seq<nat>, requests: seq<PasswordConfig>, final: PasswordConfig)
    ensures totals == RunFrom(Start, input).totals
    ensures requests == RunFrom(Start, input).requests
    ensures final == RunFrom(Start, input).final.config
  {
    var menu := Start;
    var rest := input;
    totals, requests := [], [];
    assert RunFrom(Start, input) == Resume(Start, input, [], []);
    while menu.running && rest != []
      invariant RunFrom(Start, input) == Resume(menu, rest, totals, requests)
      decreases |rest|
    {
      RunStep(menu, rest, totals, requests);
      var totalLen := ShownTotal(menu.config);
      totals := totals + [totalLen];
      var next, generate;
      next, generate, rest := MenuRound(menu, rest);
      if generate {
        requests := requests + [menu.config];
      }
      menu := next;
    }
    final := menu.config;
  }

  /** Toggling a category twice restores the settings. */
  lemma ToggleTwiceRestores(c: PasswordConfig, cat: Category)
    ensures Toggle(Toggle(c, cat), cat) == c
  {
  }

  /** Every length in the settings is below 1024. */
  predicate LengthsBounded(c: PasswordConfig) {
    forall cat :: LengthOf(c, cat) < LengthLimit
  }

  /** A round keeps every length below 1024: a new length is only taken when it is. */
  lemma RoundKeepsLengthsBounded(m: Menu, input: seq<Read>)
    requires input != [] && LengthsBounded(m.config)
    ensures LengthsBounded(Round(m, input).menu.config)
  {
  }

  /**
   * From the default settings, every Generate request and the final settings
   * have all lengths below 1024; so their sum fits in a C int, as
   * GenerateAdvanced needs.
   */
  lemma {:induction false} RequestsBounded(m: Menu, input: seq<Read>)
    requires LengthsBounded(m.config)
    ensures var s := RunFrom(m, input);
            LengthsBounded(s.final.config) &&
            forall k :: 0 <= k < |s.requests| ==> LengthsBounded(s.requests[k]) && PasswordGen.TotalFitsInt(s.requests[k])
    decreases |input|
  {
    if m.running && input != [] {
      var r := Round(m, input);
      RoundKeepsLengthsBounded(m, input);
      RequestsBounded(r.menu, r.rest);
      assert LengthOf(m.config, Letter) < LengthLimit && LengthOf(m.config, Number) < LengthLimit && LengthOf(m.config, Symbol) < LengthLimit;
    }
  }

  /** The whole session from the start: every request can be handed to GenerateAdvanced. */
  lemma SessionRequestsFit(input: seq<Read>)
    ensures var s := RunFrom(Start, input);
            forall k :: 0 <= k < |s.requests| ==> PasswordGen.TotalFitsInt(s.requests[k])
  {
    assert LengthOf(DefaultConfig, Letter) < LengthLimit && LengthOf(DefaultConfig, Number) < LengthLimit && LengthOf(DefaultConfig, Symbol) < LengthLimit;
    RequestsBounded(Start, input);
  }

  /** A running round stops the loop exactly when the line read starts with 8 or q; Q does not. */
  lemma StopsOnlyOnExitKey(m: Menu, input: seq<Read>)
    requires m.running && input != []
    ensures !Round(m, input).menu.running <==>
            input[0].Some? && input[0].value != [] && IsExitKey(input[0].value[0])
  {
  }

  /**
   * A failed read, an empty line, or a line whose first character is not one
   * of the menu keys 1-8 and q leaves the settings and the running flag as
   * they were and requests nothing.
   */
  lemma OtherInputIgnored(m: Menu, input: seq<Read>)
    requires input != []
    requires input[0].None? || input[0].value == [] ||
             !('1' <= input[0].value[0] <= '8' || input[0].value[0] == 'q')
    ensures Round(m, input).menu.config == m.config
    ensures Round(m, input).menu.running == m.running
    ensures !Round(m, input).generate
  {
  }

  /**
   * Keys 5-7 set the length of their category to the value typed on the
   * next line when it is below 1024, and leave every other setting alone.
   * An empty line (Enter alone) parses as 0.
   */
  lemma LengthPromptSets(m: Menu, line: CStr, typed: CStr, input: seq<Read>)
    requires line != [] && '5' <= line[0] <= '7'
    ensures var c := Round(m, [Some(line), Some(typed)] + input).menu.config;
            var cat := KeyCategory(line[0]);
            (ParseDecimal(typed) < LengthLimit ==> LengthOf(c, cat) == ParseDecimal(typed)) &&
            (ParseDecimal(typed) >= LengthLimit ==> LengthOf(c, cat) == LengthOf(m.config, cat)) &&
            (forall other :: other != cat ==> LengthOf(c, other) == LengthOf(m.config, other)) &&
            (forall any :: Uses(c, any) == Uses(m.config, any))
  {
    var input' := [Some(line), Some(typed)] + input;
    assert input'[1..] == [Some(typed)] + input;
  }

  /**
   * When the read after key 5, 6 or 7 fails, inputBuf still holds the menu
   * line, so the menu line itself is parsed as the new length.
   */
  lemma FailedPromptReparsesMenuLine(m: Menu, line: CStr, input: seq<Read>)
    requires line != [] && '5' <= line[0] <= '7'
    ensures var c := Round(m, [Some(line), None] + input).menu.config;
            var cat := KeyCategory(line[0]);
            (ParseDecimal(line) < LengthLimit ==> LengthOf(c, cat) == ParseDecimal(line)) &&
            (ParseDecimal(line) >= LengthLimit ==> LengthOf(c, cat) == LengthOf(m.config, cat)) &&
            (forall other :: other != cat ==> LengthOf(c, other) == LengthOf(m.config, other)) &&
            (forall any :: Uses(c, any) == Uses(m.config, any))
  {
    var input' := [Some(line), None] + input;
    assert input'[1..] == [None] + input;
  }

  /** The line "5" followed by a failed read sets the letter length to 5. */
  lemma FailedPromptReusesMenuLine(m: Menu, input: seq<Read>)
    ensures Round(m, [Some("5"), None] + input).menu.config.letterLength == 5
  {
    assert LeadingDigits("5") == "5";
    assert ParseDecimal("5") == 5;
    FailedPromptReparsesMenuLine(m, "5", input);
  }

  /** Pressing Enter alone at the length prompt sets that length to 0. */
  lemma EnterAtPromptClearsLength(m: Menu, line: CStr, input: seq<Read>)
    requires line != [] && '5' <= line[0] <= '7'
    ensures LengthOf(Round(m, [Some(line), Some([])] + input).menu.config, KeyCategory(line[0])) == 0
  {
    assert LeadingDigits([]) == [];
    LengthPromptSets(m, line, [], input);
  }
}
