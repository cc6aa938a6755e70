/**
 * The LaTeX export of a finished benchmark (BenchmarkExporter.java): a
 * text buffer of lines, builders for `\newcommand{\Name}{value}` lines
 * whose names must be made of ASCII letters, and the name of the file the
 * buffer is written to. Writing the file is not part of this model; the
 * export returns the file name and leaves the text in `history`.
 */
module BenchmarkExporter {
  import opened Results
  import opened Text
  import BenchmarkConfig
  import opened SPSBenchmark

  // ---------------------------------------------------------------------
  // Lines of the buffer
  // ---------------------------------------------------------------------

  /** The text `loglns(ms)` appends: every message followed by a newline, in order. */
  function Lines(ms: seq<string>): string {
    if ms == [] then "" else Lines(ms[..|ms| - 1]) + ms[|ms| - 1] + "\n"
  }

  /** The text is empty exactly when there are no messages, and otherwise ends in a newline after the last one. */
  lemma LinesShape(ms: seq<string>)
    ensures ms == [] <==> Lines(ms) == []
    ensures ms != [] ==> var r, m := Lines(ms), ms[|ms| - 1];
      |r| > |m| && r[|r| - 1] == '\n' && r[|r| - 1 - |m|..|r| - 1] == m
  {
    if ms != [] {
      var r, m := Lines(ms), ms[|ms| - 1];
      assert r == Lines(ms[..|ms| - 1]) + m + "\n";
    }
  }

  lemma {:induction false} LinesConcat(a: seq<string>, b: seq<string>)
    ensures Lines(a + b) == Lines(a) + Lines(b)
  {
    if b == [] {
      assert a + b == a;
    } else {
      var init := b[..|b| - 1];
      assert (a + b)[..|a + b| - 1] == a + init;
      LinesConcat(a, init);
    }
  }

  /** The lines of s: the pieces between newlines, and a last piece without one when it is not empty. */
  function SplitLines(s: string): seq<string>
    decreases |s|
  {
    var k := CharIndex(s, '\n');
    if k == |s| then (if s == [] then [] else [s]) else [s[..k]] + SplitLines(s[k + 1..])
  }

  /** The length of the longest prefix of s without the character c. */
  function CharIndex(s: string, c: char): (k: nat)
    ensures k <= |s|
    ensures forall i :: 0 <= i < k ==> s[i] != c
    ensures k < |s| ==> s[k] == c
  {
    if s == [] || s[0] == c then 0 else 1 + CharIndex(s[1..], c)
  }

  lemma {:induction false} CharIndexOf(a: string, c: char, rest: string)
    requires c !in a
    ensures CharIndex(a + [c] + rest, c) == |a|
  {
    if a != [] {
      assert (a + [c] + rest)[1..] == a[1..] + [c] + rest;
      CharIndexOf(a[1..], c, rest);
    }
  }

  /** Messages without newlines are read back line by line from what loglns appended. */
  lemma {:induction false} SplitLinesOfLines(ms: seq<string>)
    requires forall k :: 0 <= k < |ms| ==> '\n' !in ms[k]
    ensures SplitLines(Lines(ms)) == ms
  {
    if ms != [] {
      var rest := ms[1..];
      assert ms == [ms[0]] + rest;
      LinesConcat([ms[0]], rest);
      assert Lines([ms[0]]) == ms[0] + "\n" by {
        assert [ms[0]][..0] == [];
      }
      var s := Lines(ms);
      assert s == ms[0] + ['\n'] + Lines(rest);
      CharIndexOf(ms[0], '\n', Lines(rest));
      assert s[..|ms[0]|] == ms[0];
      assert s[|ms[0]| + 1..] == Lines(rest);
      SplitLinesOfLines(rest);
    }
  }

  // ---------------------------------------------------------------------
  // LaTeX commands
  // ---------------------------------------------------------------------

  const NonAlphaMessage: string := "LaTeX commands cannot contain non-alpha characters!"

  const NewCommandPrefix: string := "\\newcommand{\\"

  /** The command line `\newcommand{\name}{body}`. */
  function NewCommand(name: string, body: string): string {
    NewCommandPrefix + name + "}{" + body + "}"
  }

  /** Reads name and body back out of a command line; None when s is not one. */
  function ParseNewCommand(s: string): Option<(string, string)> {
    match StripPrefix(NewCommandPrefix, s)
    case None => None
    case Some(rest) =>
      var k := CharIndex(rest, '}');
      var after := rest[k..];
      if |after| >= 3 && after[..2] == "}{" && after[|after| - 1] == '}' then
        Some((rest[..k], after[2..|after| - 1]))
      else None
  }

  /** The part of a command line after its prefix. */
  lemma NewCommandTail(name: string, body: string)
    ensures NewCommand(name, body) == NewCommandPrefix + (name + ['}'] + ("{" + body + "}"))
  {
  }

  lemma SplitAtBrace(name: string, tail: string)
    requires '}' !in name
    ensures var rest := name + ['}'] + tail;
      CharIndex(rest, '}') == |name| && rest[..|name|] == name && rest[|name|..] == ['}'] + tail
  {
    CharIndexOf(name, '}', tail);
  }

  lemma CommandBody(body: string)
    ensures var after := ['}'] + ("{" + body + "}");
      |after| >= 3 && after[..2] == "}{" && after[|after| - 1] == '}' && after[2..|after| - 1] == body
  {
  }

  /** A command line gives back its name and body, as long as the name has no closing brace. */
  lemma NewCommandRoundTrip(name: string, body: string)
    requires '}' !in name
    ensures ParseNewCommand(NewCommand(name, body)) == Some((name, body))
  {
    var tail := "{" + body + "}";
    var rest := name + ['}'] + tail;
    NewCommandTail(name, body);
    StripPrefixOfConcat(NewCommandPrefix, rest);
    SplitAtBrace(name, tail);
    CommandBody(body);
  }

  /**
   * The text `String.format("\\newcommand{\\%s %s %s %s}{...}", w1, w2, w3, w4)`
   * builds before its spaces are removed.
   */
  function SpacedCommand(w1: string, w2: string, w3: string, w4: string, body: string): string {
    NewCommandPrefix + w1 + " " + w2 + " " + w3 + " " + w4 + "}{" + body + "}"
  }

  lemma RemoveSpacesConcat(a: string, b: string)
    ensures RemoveSpaces(a + b) == RemoveSpaces(a) + RemoveSpaces(b)
  {
    FilterConcat(a, b, NotSpace);
  }

  lemma RemoveSpacesOfSpaceless(s: string)
    requires ' ' !in s
    ensures RemoveSpaces(s) == s
  {
    assert forall i :: 0 <= i < |s| ==> s[i] in s;
    FilterKeepsAll(s, NotSpace);
  }

  lemma RemoveSpacesOfSpace()
    ensures RemoveSpaces(" ") == ""
  {
    assert " "[1..] == "";
  }

  lemma RemoveSpacesWord(x: string, w: string)
    requires ' ' !in w
    ensures RemoveSpaces(x + " " + w) == RemoveSpaces(x) + w
  {
    RemoveSpacesConcat(x + " ", w);
    RemoveSpacesConcat(x, " ");
    RemoveSpacesOfSpace();
    RemoveSpacesOfSpaceless(w);
  }

  /** Removing the spaces of the name part `\newcommand{\w1 w2 w3 w4`. */
  lemma SpacedName(w1: string, w2: string, w3: string, w4: string)
    requires ' ' !in w1 && ' ' !in w2 && ' ' !in w3 && ' ' !in w4
    ensures RemoveSpaces(NewCommandPrefix + w1 + " " + w2 + " " + w3 + " " + w4) ==
            NewCommandPrefix + w1 + w2 + w3 + w4
  {
    var x1 := NewCommandPrefix + w1;
    RemoveSpacesConcat(NewCommandPrefix, w1);
    RemoveSpacesOfSpaceless(NewCommandPrefix);
    RemoveSpacesOfSpaceless(w1);
    RemoveSpacesWord(x1, w2);
    RemoveSpacesWord(x1 + " " + w2, w3);
    RemoveSpacesWord(x1 + " " + w2 + " " + w3, w4);
  }

  /** Removing the spaces of `x}{body}`. */
  lemma SpacedBody(x: string, body: string)
    ensures RemoveSpaces(x + "}{" + body + "}") == RemoveSpaces(x) + "}{" + RemoveSpaces(body) + "}"
  {
    RemoveSpacesConcat(x + "}{" + body, "}");
    RemoveSpacesConcat(x + "}{", body);
    RemoveSpacesConcat(x, "}{");
    RemoveSpacesOfSpaceless("}{");
    RemoveSpacesOfSpaceless("}");
  }

  /** Removing the spaces of a spaced command joins its four words into its name. */
  lemma SpacedCommandName(w1: string, w2: string, w3: string, w4: string, body: string)
    requires ' ' !in w1 && ' ' !in w2 && ' ' !in w3 && ' ' !in w4
    ensures RemoveSpaces(SpacedCommand(w1, w2, w3, w4, body)) == NewCommand(w1 + w2 + w3 + w4, RemoveSpaces(body))
  {
    var x := NewCommandPrefix + w1 + " " + w2 + " " + w3 + " " + w4;
    SpacedName(w1, w2, w3, w4);
    SpacedBody(x, body);
    assert NewCommandPrefix + w1 + w2 + w3 + w4 == NewCommandPrefix + (w1 + w2 + w3 + w4);
  }

  lemma LettersSpaceFree(s: string)
    requires IsLetters(s)
    ensures ' ' !in s && '}' !in s
  {
  }

  lemma DecimalSpaceFree(n: int)
    ensures ' ' !in Decimal(n) && RemoveSpaces(Decimal(n)) == Decimal(n)
  {
    RemoveSpacesOfSpaceless(Decimal(n));
  }

  /** generateConfigValueTeXCommand: `\newcommand{\<sps><mode>Config<name>}{<value>}`. */
  function ConfigValueTeXCommand(spsName: string, mode: Mode, configName: string, configValue: int)
    : (r: Result<string>)
    ensures r.Success? <==> IsLetters(configName) && IsLetters(spsName)
    ensures r.Failure? ==> r.error == IllegalArgument(NonAlphaMessage)
    ensures r.Success? ==> r.value == NewCommand(spsName + ModeName(mode) + "Config" + configName, Decimal(configValue))
  {
    if !(IsLetters(configName) && IsLetters(spsName)) then Failure(IllegalArgument(NonAlphaMessage))
    else
      LettersSpaceFree(spsName);
      LettersSpaceFree(configName);
      DecimalSpaceFree(configValue);
      SpacedCommandName(spsName, ModeName(mode), "Config", configName, Decimal(configValue));
      Success(RemoveSpaces(SpacedCommand(spsName, ModeName(mode), "Config", configName, Decimal(configValue))))
  }

  /** A config command is read back as its name and the configured number. */
  lemma ConfigValueReadBack(spsName: string, mode: Mode, configName: string, configValue: int)
    requires IsLetters(configName) && IsLetters(spsName)
    ensures var r := ConfigValueTeXCommand(spsName, mode, configName, configValue);
      r.Success? &&
      ParseNewCommand(r.value) == Some((spsName + ModeName(mode) + "Config" + configName, Decimal(configValue))) &&
      ReadInt(Decimal(configValue)) == Some((configValue, ""))
  {
    var name := spsName + ModeName(mode) + "Config" + configName;
    LettersSpaceFree(spsName);
    LettersSpaceFree(configName);
    assert '}' !in name;
    NewCommandRoundTrip(name, Decimal(configValue));
    DecimalRoundTrip(configValue, "");
    assert Decimal(configValue) + "" == Decimal(configValue);
  }

  /** The config entries in export order. */
  const ConfigNames: seq<string> := ["Iterations", "MessageLength", "PrewarmIterations"]

  function ConfigValues<G, C>(config: BenchmarkConfig.Config<G, C>): seq<int> {
    [config.runIterations, config.messageLength, config.prewarmIterations]
  }

  /** generateConfigTeXCommands: the three config commands, in the order of ConfigNames. */
  function ConfigTeXCommands<G, C>(config: BenchmarkConfig.Config<G, C>, mode: Mode, spsName: string)
    : (r: Result<seq<string>>)
    ensures r.Success? <==> IsLetters(spsName)
    ensures r.Failure? ==> r.error == IllegalArgument(NonAlphaMessage)
    ensures r.Success? ==> |r.value| == 3 && forall k :: 0 <= k < 3 ==>
      r.value[k] == NewCommand(spsName + ModeName(mode) + "Config" + ConfigNames[k], Decimal(ConfigValues(config)[k]))
  {
    if !IsLetters(spsName) then Failure(IllegalArgument(NonAlphaMessage))
    else
      LettersOf(ConfigNames[0]);
      LettersOf(ConfigNames[1]);
      LettersOf(ConfigNames[2]);
      Success([ConfigValueTeXCommand(spsName, mode, ConfigNames[0], config.runIterations).value,
               ConfigValueTeXCommand(spsName, mode, ConfigNames[1], config.messageLength).value,
               ConfigValueTeXCommand(spsName, mode, ConfigNames[2], config.prewarmIterations).value])
  }

  /** milliFromNano: nanoseconds to milliseconds, in exact arithmetic. */
  function MilliFromNano(nanos: real): (ms: real)
    ensures ms * 1000000.0 == nanos
  {
    nanos / 1000000.0
  }

  /**
   * generateTimeResultTeXCommand: `\newcommand{\<sps>Time<op><timer>}{<ms>}`,
   * where formatMs renders a number of milliseconds the way `%,.2f` does.
   */
  function TimeResultTeXCommand(operation: string, spsName: string, timerName: string,
                                timerResultInMs: real, formatMs: real -> string): (r: Result<string>)
    ensures r.Success? <==> IsLetters(operation) && IsLetters(spsName) && IsLetters(timerName)
    ensures r.Failure? ==> r.error == IllegalArgument(NonAlphaMessage)
    ensures r.Success? ==>
      r.value == NewCommand(spsName + "Time" + operation + timerName, RemoveSpaces(formatMs(timerResultInMs)))
  {
    if !(IsLetters(operation) && IsLetters(spsName) && IsLetters(timerName)) then
      Failure(IllegalArgument(NonAlphaMessage))
    else
      LettersSpaceFree(spsName);
      LettersSpaceFree(operation);
      LettersSpaceFree(timerName);
      SpacedCommandName(spsName, "Time", operation, timerName, formatMs(timerResultInMs));
      Success(RemoveSpaces(SpacedCommand(spsName, "Time", operation, timerName, formatMs(timerResultInMs))))
  }

  /** The timer entries in export order. */
  const TimerNames: seq<string> := ["Avg", "Min", "Max", "Sum"]

  /** The four times in the order of TimerNames, in nanoseconds. */
  function TimerValues(t: Times): seq<real> {
    [t.avg, t.min as real, t.max as real, t.sum as real]
  }

  /** generateTimeResultTeXCommands: the four time commands of an operation, in the order of TimerNames. */
  function TimeResultTeXCommands(operation: string, spsName: string, bmTimes: Times, formatMs: real -> string)
    : (r: Result<seq<string>>)
    ensures r.Success? <==> IsLetters(operation) && IsLetters(spsName)
    ensures r.Failure? ==> r.error == IllegalArgument(NonAlphaMessage)
    ensures r.Success? ==> |r.value| == 4 && forall k :: 0 <= k < 4 ==>
      r.value[k] == NewCommand(spsName + "Time" + operation + TimerNames[k],
                               RemoveSpaces(formatMs(MilliFromNano(TimerValues(bmTimes)[k]))))
  {
    if !(IsLetters(operation) && IsLetters(spsName)) then Failure(IllegalArgument(NonAlphaMessage))
    else
      LettersOf(TimerNames[0]);
      LettersOf(TimerNames[1]);
      LettersOf(TimerNames[2]);
      LettersOf(TimerNames[3]);
      Success([TimeResultTeXCommand(operation, spsName, TimerNames[0], MilliFromNano(bmTimes.avg), formatMs).value,
               TimeResultTeXCommand(operation, spsName, TimerNames[1], MilliFromNano(bmTimes.min as real), formatMs).value,
               TimeResultTeXCommand(operation, spsName, TimerNames[2], MilliFromNano(bmTimes.max as real), formatMs).value,
               TimeResultTeXCommand(operation, spsName, TimerNames[3], MilliFromNano(bmTimes.sum as real), formatMs).value])
  }

  /** The three groups of a bilinear group whose operations are counted. */
  datatype SubGroup = G1 | G2 | GT

  const SubGroups: seq<SubGroup> := [G1, G2, GT]

  /** The tag a group's counting command carries. */
  function GroupName(g: SubGroup): (r: string)
    ensures |r| == 1 && IsAsciiUpper(r[0]) && IsLetters(r)
  {
    match g
    case G1 => "G"
    case G2 => "H"
    case GT => "T"
  }

  /**
   * generateCountingResultTeXCommand: `\newcommand{\<sps>Count<op><group>}{<count>}`.
   * It checks no name; the spaces of the format are removed all the same.
   */
  function CountingResultTeXCommand(operation: string, spsName: string, groupName: string, count: int)
    : (r: string)
    ensures ' ' !in r
    ensures IsLetters(operation) && IsLetters(spsName) && IsLetters(groupName) ==>
      r == NewCommand(spsName + "Count" + operation + groupName, Decimal(count))
  {
    if IsLetters(operation) && IsLetters(spsName) && IsLetters(groupName) then
      LettersSpaceFree(spsName);
      LettersSpaceFree(operation);
      LettersSpaceFree(groupName);
      DecimalSpaceFree(count);
      SpacedCommandName(spsName, "Count", operation, groupName, Decimal(count));
      RemoveSpaces(SpacedCommand(spsName, "Count", operation, groupName, Decimal(count)))
    else
      RemoveSpaces(SpacedCommand(spsName, "Count", operation, groupName, Decimal(count)))
  }

  /**
   * generateCountingResultTeXCommands: the counting commands of an operation
   * for the groups G1, G2 and GT, in that order; numOpsTotal reads the
   * operation counter of one group of the counting bilinear group.
   */
  function CountingResultTeXCommands<C>(operation: string, groupOperation: string, spsName: string,
                                        bGroup: C, numOpsTotal: (C, SubGroup, string) -> int)
    : (r: Result<seq<string>>)
    ensures r.Success? <==> IsLetters(operation) && IsLetters(spsName)
    ensures r.Failure? ==> r.error == IllegalArgument(NonAlphaMessage)
    ensures r.Success? ==> |r.value| == 3 && forall k :: 0 <= k < 3 ==>
      r.value[k] == NewCommand(spsName + "Count" + operation + GroupName(SubGroups[k]),
                               Decimal(numOpsTotal(bGroup, SubGroups[k], groupOperation)))
  {
    if !(IsLetters(operation) && IsLetters(spsName)) then Failure(IllegalArgument(NonAlphaMessage))
    else
      assert IsLetters(GroupName(G1)) && IsLetters(GroupName(G2)) && IsLetters(GroupName(GT));
      Success([CountingResultTeXCommand(operation, spsName, GroupName(G1), numOpsTotal(bGroup, G1, groupOperation)),
               CountingResultTeXCommand(operation, spsName, GroupName(G2), numOpsTotal(bGroup, G2, groupOperation)),
               CountingResultTeXCommand(operation, spsName, GroupName(GT), numOpsTotal(bGroup, GT, groupOperation))])
  }

  // ---------------------------------------------------------------------
  // exportBenchmarkTeX
  // ---------------------------------------------------------------------

  /** The operation name a stage carries in its commands. */
  function OperationName(s: Stage): (r: string)
    ensures IsLetters(r)
  {
    match s
    case Setup => "Setup"
    case KeyGen => "KeyGen"
    case Sign => "Sign"
    case Verify => "Verify"
  }

  /** The scheme name as it appears in command names: every digit removed. */
  function ExportName(schemeName: string): (r: string)
    ensures forall i :: 0 <= i < |r| ==> !IsDigit(r[i])
  {
    RemoveDigits(schemeName)
  }

  /** A scheme name of letters followed by a version number exports as the letters alone. */
  lemma ExportNameOfVersioned(letters: string, version: string)
    requires IsLetters(letters) && AllDigits(version)
    ensures ExportName(letters + version) == letters
  {
    FilterConcat(letters, version, NotDigit);
    RemoveDigitsOfLetters(letters);
    FilterDropsAll(version, NotDigit);
  }

  lemma ExportNameIdempotent(schemeName: string)
    ensures ExportName(ExportName(schemeName)) == ExportName(schemeName)
  {
    RemoveDigitsIdempotent(schemeName);
  }

  /** Every letter of the scheme name survives, and nothing but its non-digits. */
  lemma ExportNameMembers(schemeName: string, c: char)
    ensures c in ExportName(schemeName) <==> c in schemeName && !IsDigit(c)
  {
    FilterMembers(schemeName, NotDigit, c);
  }

  const ResultsSuffix: string := "_results.tex"

  /** `String.format("%s_%s_results.tex", mode, schemeName).toLowerCase(Locale.ROOT)`. */
  function ExportFileName(mode: Mode, schemeName: string): (r: string)
    ensures |r| == |ModeName(mode)| + 1 + |schemeName| + |ResultsSuffix|
    ensures forall i :: 0 <= i < |r| ==> !IsAsciiUpper(r[i])
  {
    ToLowerAscii(ModeName(mode) + "_" + schemeName + ResultsSuffix)
  }

  lemma LowerModeName(mode: Mode)
    ensures ToLowerAscii(ModeName(mode)) == if mode == Time then "time" else "counting"
  {
    var r := ToLowerAscii(ModeName(mode));
    if mode == Time {
      assert r[0] == 't' && r[1] == 'i' && r[2] == 'm' && r[3] == 'e';
    } else {
      assert r[0] == 'c' && r[1] == 'o' && r[2] == 'u' && r[3] == 'n';
      assert r[4] == 't' && r[5] == 'i' && r[6] == 'n' && r[7] == 'g';
    }
  }

  lemma LowerResultsSuffix()
    ensures ToLowerAscii("_") == "_" && ToLowerAscii(ResultsSuffix) == ResultsSuffix
  {
    ToLowerAsciiUnchanged(ResultsSuffix);
    ToLowerAsciiUnchanged("_");
  }

  /** The file name is the lowered mode, an underscore, the lowered scheme name and "_results.tex". */
  lemma ExportFileNameParts(mode: Mode, schemeName: string)
    ensures ExportFileName(mode, schemeName) ==
      (if mode == Time then "time" else "counting") + "_" + ToLowerAscii(schemeName) + ResultsSuffix
  {
    var m := ModeName(mode);
    ToLowerAsciiConcat(m + "_" + schemeName, ResultsSuffix);
    ToLowerAsciiConcat(m + "_", schemeName);
    ToLowerAsciiConcat(m, "_");
    LowerResultsSuffix();
    LowerModeName(mode);
  }

  /** The scheme name is recovered from the file name when it is written in lower case. */
  lemma ExportFileNameRecovers(mode: Mode, schemeName: string)
    requires forall c | c in schemeName :: !IsAsciiUpper(c)
    ensures var r := ExportFileName(mode, schemeName);
      var p := |r| - |schemeName| - |ResultsSuffix|;
      0 <= p && r[p..|r| - |ResultsSuffix|] == schemeName
  {
    ExportFileNameParts(mode, schemeName);
    ToLowerAsciiUnchanged(schemeName);
  }

  /** The commands of one stage: its times in Time mode, its operation counts in Counting mode. */
  function StageCommands<C>(mode: Mode, s: Stage, spsName: string, timeResults: seq<Times>,
                            formatMs: real -> string, bGroup: C, numOpsTotal: (C, SubGroup, string) -> int)
    : (r: seq<string>)
    requires IsLetters(spsName) && |timeResults| == |Stages|
    ensures |r| == (if mode == Time then 4 else 3)
    ensures mode == Time ==> r == TimeResultTeXCommands(OperationName(s), spsName, timeResults[StageIndex(s)], formatMs).value
    ensures mode == Counting ==>
      r == CountingResultTeXCommands(OperationName(s), StageName(s), spsName, bGroup, numOpsTotal).value
  {
    if mode == Time then TimeResultTeXCommands(OperationName(s), spsName, timeResults[StageIndex(s)], formatMs).value
    else CountingResultTeXCommands(OperationName(s), StageName(s), spsName, bGroup, numOpsTotal).value
  }

  /**
   * Every line exportBenchmarkTeX logs, in order: the config commands, then
   * the commands of setup, keyGen, sign and verify.
   */
  function ExportCommands<G, C>(schemeName: string, mode: Mode, config: BenchmarkConfig.Config<G, C>,
                                timeResults: seq<Times>, formatMs: real -> string,
                                numOpsTotal: (C, SubGroup, string) -> int)
    : (r: Result<seq<string>>)
    requires |timeResults| == |Stages|
    ensures r.Success? <==> IsLetters(ExportName(schemeName))
    ensures r.Failure? ==> r.error == IllegalArgument(NonAlphaMessage)
    ensures r.Success? ==> |r.value| == 3 + 4 * (if mode == Time then 4 else 3)
  {
    var spsName := ExportName(schemeName);
    match ConfigTeXCommands(config, mode, spsName)
    case Failure(e) => Failure(e)
    case Success(configCommands) =>
      var b := config.countingBGroup;
      Success(configCommands +
              StageCommands(mode, Setup, spsName, timeResults, formatMs, b, numOpsTotal) +
              StageCommands(mode, KeyGen, spsName, timeResults, formatMs, b, numOpsTotal) +
              StageCommands(mode, Sign, spsName, timeResults, formatMs, b, numOpsTotal) +
              StageCommands(mode, Verify, spsName, timeResults, formatMs, b, numOpsTotal))
  }

  /** When the export name is accepted, the export lines are the config commands followed by the four stages' commands. */
  lemma ExportCommandsValue<G, C>(schemeName: string, mode: Mode, config: BenchmarkConfig.Config<G, C>,
                                  timeResults: seq<Times>, formatMs: real -> string,
                                  numOpsTotal: (C, SubGroup, string) -> int)
    requires IsLetters(ExportName(schemeName)) && |timeResults| == |Stages|
    ensures var spsName, b := ExportName(schemeName), config.countingBGroup;
      ExportCommands(schemeName, mode, config, timeResults, formatMs, numOpsTotal) ==
      Success(ConfigTeXCommands(config, mode, spsName).value +
              StageCommands(mode, Setup, spsName, timeResults, formatMs, b, numOpsTotal) +
              StageCommands(mode, KeyGen, spsName, timeResults, formatMs, b, numOpsTotal) +
              StageCommands(mode, Sign, spsName, timeResults, formatMs, b, numOpsTotal) +
              StageCommands(mode, Verify, spsName, timeResults, formatMs, b, numOpsTotal))
  {
  }

  /**
   * A list made of a head of three entries followed by one block of width n
   * per stage, in stage order: entry 3 + n * i + t is entry t of stage i's block.
   */
  lemma StageLayout<T>(r: seq<T>, head: seq<T>, block: Stage -> seq<T>, n: nat)
    requires |head| == 3 && forall s :: |block(s)| == n
    requires r == head + block(Setup) + block(KeyGen) + block(Sign) + block(Verify)
    ensures |r| == 3 + 4 * n
    ensures forall k | 0 <= k < 3 :: r[k] == head[k]
    ensures forall s: Stage, t | 0 <= t < n :: r[3 + n * StageIndex(s) + t] == block(s)[t]
  {
    forall s: Stage, t | 0 <= t < n
      ensures r[3 + n * StageIndex(s) + t] == block(s)[t]
    {
      match s
      case Setup => assert StageIndex(s) == 0;
      case KeyGen => assert StageIndex(s) == 1;
      case Sign => assert StageIndex(s) == 2;
      case Verify => assert StageIndex(s) == 3;
    }
  }

  /**
   * Where each line of a Time-mode export sits: the three config commands
   * first, then, for stage number i, its Avg, Min, Max and Sum commands at
   * 3 + 4 * i .. 3 + 4 * i + 3, holding that stage's stored times.
   */
  lemma ExportLayoutTime<G, C>(schemeName: string, config: BenchmarkConfig.Config<G, C>,
                               timeResults: seq<Times>, formatMs: real -> string,
                               numOpsTotal: (C, SubGroup, string) -> int)
    requires IsLetters(ExportName(schemeName)) && |timeResults| == |Stages|
    ensures var r, sps := ExportCommands(schemeName, Time, config, timeResults, formatMs, numOpsTotal).value,
                          ExportName(schemeName);
      |r| == 19 &&
      (forall k | 0 <= k < 3 ::
         r[k] == NewCommand(sps + ModeName(Time) + "Config" + ConfigNames[k], Decimal(ConfigValues(config)[k]))) &&
      (forall s: Stage, t | 0 <= t < 4 ::
         r[3 + 4 * StageIndex(s) + t] ==
         NewCommand(sps + "Time" + OperationName(s) + TimerNames[t],
                    RemoveSpaces(formatMs(MilliFromNano(TimerValues(timeResults[StageIndex(s)])[t])))))
  {
    // Only the contracts of the command builders are needed here, not their bodies.
    hide ExportCommands, StageCommands, ConfigTeXCommands, ConfigValueTeXCommand,
         TimeResultTeXCommands, TimeResultTeXCommand, CountingResultTeXCommands, CountingResultTeXCommand,
         NewCommand, SpacedCommand;
    var sps, b := ExportName(schemeName), config.countingBGroup;
    var r := ExportCommands(schemeName, Time, config, timeResults, formatMs, numOpsTotal).value;
    ExportCommandsValue(schemeName, Time, config, timeResults, formatMs, numOpsTotal);
    var block := (s: Stage) => StageCommands(Time, s, sps, timeResults, formatMs, b, numOpsTotal);
    StageLayout(r, ConfigTeXCommands(config, Time, sps).value, block, 4);
    forall s: Stage, t | 0 <= t < 4
      ensures r[3 + 4 * StageIndex(s) + t] ==
              NewCommand(sps + "Time" + OperationName(s) + TimerNames[t],
                         RemoveSpaces(formatMs(MilliFromNano(TimerValues(timeResults[StageIndex(s)])[t]))))
    {
      assert r[3 + 4 * StageIndex(s) + t] == block(s)[t];
    }
  }

  /**
   * Where each line of a Counting-mode export sits: the three config commands
   * first, then, for stage number i, its G1, G2 and GT commands at
   * 3 + 3 * i .. 3 + 3 * i + 2, holding the group counters for that stage.
   */
  lemma ExportLayoutCounting<G, C>(schemeName: string, config: BenchmarkConfig.Config<G, C>,
                                   timeResults: seq<Times>, formatMs: real -> string,
                                   numOpsTotal: (C, SubGroup, string) -> int)
    requires IsLetters(ExportName(schemeName)) && |timeResults| == |Stages|
    ensures var r, sps := ExportCommands(schemeName, Counting, config, timeResults, formatMs, numOpsTotal).value,
                          ExportName(schemeName);
      |r| == 15 &&
      (forall k | 0 <= k < 3 ::
         r[k] == NewCommand(sps + ModeName(Counting) + "Config" + ConfigNames[k], Decimal(ConfigValues(config)[k]))) &&
      (forall s: Stage, g | 0 <= g < 3 ::
         r[3 + 3 * StageIndex(s) + g] ==
         NewCommand(sps + "Count" + OperationName(s) + GroupName(SubGroups[g]),
                    Decimal(numOpsTotal(config.countingBGroup, SubGroups[g], StageName(s)))))
  {
    // Only the contracts of the command builders are needed here, not their bodies.
    hide ExportCommands, StageCommands, ConfigTeXCommands, ConfigValueTeXCommand,
         TimeResultTeXCommands, TimeResultTeXCommand, CountingResultTeXCommands, CountingResultTeXCommand,
         NewCommand, SpacedCommand;
    var sps, b := ExportName(schemeName), config.countingBGroup;
    var r := ExportCommands(schemeName, Counting, config, timeResults, formatMs, numOpsTotal).value;
    ExportCommandsValue(schemeName, Counting, config, timeResults, formatMs, numOpsTotal);
    var block := (s: Stage) => StageCommands(Counting, s, sps, timeResults, formatMs, b, numOpsTotal);
    StageLayout(r, ConfigTeXCommands(config, Counting, sps).value, block, 3);
    forall s: Stage, g | 0 <= g < 3
      ensures r[3 + 3 * StageIndex(s) + g] ==
              NewCommand(sps + "Count" + OperationName(s) + GroupName(SubGroups[g]),
                         Decimal(numOpsTotal(config.countingBGroup, SubGroups[g], StageName(s))))
    {
      assert r[3 + 3 * StageIndex(s) + g] == block(s)[g];
    }
  }

  /** The static `history` buffer of BenchmarkExporter and the operations on it. */
  class Exporter {
    var history: string

    constructor ()
      ensures history == ""
    {
      history := "";
    }

    method Clear()
      modifies this
      ensures history == ""
    {
      history := "";
    }

    method Log(message: string)
      modifies this
      ensures history == old(history) + message
    {
      history := history + message;
    }

    method LogLn(message: string)
      modifies this
      ensures history == old(history) + message + "\n"
    {
      history := history + message;
      history := history + "\n";
    }

    method LogLns(messages: seq<string>)
      modifies this
      ensures history == old(history) + Lines(messages)
    {
      for i := 0 to |messages|
        invariant history == old(history) + Lines(messages[..i])
      {
        LogLn(messages[i]);
        assert messages[..i + 1][..i] == messages[..i];
      }
      assert messages[..|messages|] == messages;
    }

    /**
     * exportBenchmarkTeX without the file write: clears the buffer and logs
     * every export line, or fails before logging anything when the scheme
     * name without its digits is not made of letters. On success it returns
     * the name of the file the buffer is meant for.
     */
    method ExportBenchmarkTeX<G, C, Sc, SK, VK, Sig, Msg>(benchmark: Benchmark<G, C, Sc, SK, VK, Sig, Msg>,
                                                          schemeName: string, mode: Mode, formatMs: real -> string,
                                                          numOpsTotal: (C, SubGroup, string) -> int)
      returns (r: Result<string>)
      requires |benchmark.timeResults| == |Stages|
      modifies this
      ensures var commands := ExportCommands(schemeName, mode, benchmark.config, benchmark.timeResults, formatMs, numOpsTotal);
        (r.Success? <==> commands.Success?) &&
        (r.Success? ==> r.value == ExportFileName(mode, schemeName) && history == Lines(commands.value)) &&
        (r.Failure? ==> r.error == commands.error && history == "")
    {
      Clear();
      var config := benchmark.config;
      var spsName := ExportName(schemeName);
      var configCommands := ConfigTeXCommands(config, mode, spsName);
      if configCommands.Failure? {
        return Failure(configCommands.error);
      }
      LogLns(configCommands.value);
      assert history == Lines(configCommands.value);
      LogStageResults(benchmark, mode, spsName, formatMs, numOpsTotal);
      ghost var ts, b := benchmark.timeResults, config.countingBGroup;
      ExportLines(configCommands.value,
                  StageCommands(mode, Setup, spsName, ts, formatMs, b, numOpsTotal),
                  StageCommands(mode, KeyGen, spsName, ts, formatMs, b, numOpsTotal),
                  StageCommands(mode, Sign, spsName, ts, formatMs, b, numOpsTotal),
                  StageCommands(mode, Verify, spsName, ts, formatMs, b, numOpsTotal));
      ExportCommandsValue(schemeName, mode, config, ts, formatMs, numOpsTotal);
      r := Success(ExportFileName(mode, schemeName));
    }

    /** The two mode blocks of exportBenchmarkTeX: the commands of setup, keyGen, sign and verify, in that order. */
    method LogStageResults<G, C, Sc, SK, VK, Sig, Msg>(benchmark: Benchmark<G, C, Sc, SK, VK, Sig, Msg>, mode: Mode,
                                                       spsName: string, formatMs: real -> string,
                                                       numOpsTotal: (C, SubGroup, string) -> int)
      requires IsLetters(spsName) && |benchmark.timeResults| == |Stages|
      modifies this
      ensures var ts, b := benchmark.timeResults, benchmark.config.countingBGroup;
        history == old(history) +
          Lines(StageCommands(mode, Setup, spsName, ts, formatMs, b, numOpsTotal)) +
          Lines(StageCommands(mode, KeyGen, spsName, ts, formatMs, b, numOpsTotal)) +
          Lines(StageCommands(mode, Sign, spsName, ts, formatMs, b, numOpsTotal)) +
          Lines(StageCommands(mode, Verify, spsName, ts, formatMs, b, numOpsTotal))
    {
      if mode == Time {
        LogTimeResults(benchmark, spsName, formatMs);
      }
      if mode == Counting {
        LogCountingResults(spsName, benchmark.config.countingBGroup, numOpsTotal);
      }
    }

    /**
     * The Time block of exportBenchmarkTeX: the time commands of the four
     * stages, in stage order, each with the times the benchmark stored under
     * the stage's name.
     */
    method LogTimeResults<G, C, Sc, SK, VK, Sig, Msg>(benchmark: Benchmark<G, C, Sc, SK, VK, Sig, Msg>,
                                                      spsName: string, formatMs: real -> string)
      requires IsLetters(spsName) && |benchmark.timeResults| == |Stages|
      modifies this
      ensures history == old(history) +
        Lines(TimeResultTeXCommands(OperationName(Setup), spsName, benchmark.timeResults[StageIndex(Setup)], formatMs).value) +
        Lines(TimeResultTeXCommands(OperationName(KeyGen), spsName, benchmark.timeResults[StageIndex(KeyGen)], formatMs).value) +
        Lines(TimeResultTeXCommands(OperationName(Sign), spsName, benchmark.timeResults[StageIndex(Sign)], formatMs).value) +
        Lines(TimeResultTeXCommands(OperationName(Verify), spsName, benchmark.timeResults[StageIndex(Verify)], formatMs).value)
    {
      LogStageTimes(benchmark, Setup, spsName, formatMs);
      LogStageTimes(benchmark, KeyGen, spsName, formatMs);
      LogStageTimes(benchmark, Sign, spsName, formatMs);
      LogStageTimes(benchmark, Verify, spsName, formatMs);
    }

    /** One line of the Time block: the time commands of a stage, with the times stored under its name. */
    method LogStageTimes<G, C, Sc, SK, VK, Sig, Msg>(benchmark: Benchmark<G, C, Sc, SK, VK, Sig, Msg>, s: Stage,
                                                     spsName: string, formatMs: real -> string)
      requires IsLetters(spsName) && |benchmark.timeResults| == |Stages|
      modifies this
      ensures history == old(history) +
        Lines(TimeResultTeXCommands(OperationName(s), spsName, benchmark.timeResults[StageIndex(s)], formatMs).value)
    {
      var times := benchmark.BenchmarkTimeResult(StageName(s));
      LogLns(TimeResultTeXCommands(OperationName(s), spsName, times.value, formatMs).value);
    }

    /** The Counting block of exportBenchmarkTeX: the counting commands of the four stages, in stage order. */
    method LogCountingResults<C>(spsName: string, bGroup: C, numOpsTotal: (C, SubGroup, string) -> int)
      requires IsLetters(spsName)
      modifies this
      ensures history == old(history) +
        Lines(CountingResultTeXCommands(OperationName(Setup), StageName(Setup), spsName, bGroup, numOpsTotal).value) +
        Lines(CountingResultTeXCommands(OperationName(KeyGen), StageName(KeyGen), spsName, bGroup, numOpsTotal).value) +
        Lines(CountingResultTeXCommands(OperationName(Sign), StageName(Sign), spsName, bGroup, numOpsTotal).value) +
        Lines(CountingResultTeXCommands(OperationName(Verify), StageName(Verify), spsName, bGroup, numOpsTotal).value)
    {
      LogLns(CountingResultTeXCommands(OperationName(Setup), StageName(Setup), spsName, bGroup, numOpsTotal).value);
      LogLns(CountingResultTeXCommands(OperationName(KeyGen), StageName(KeyGen), spsName, bGroup, numOpsTotal).value);
      LogLns(CountingResultTeXCommands(OperationName(Sign), StageName(Sign), spsName, bGroup, numOpsTotal).value);
      LogLns(CountingResultTeXCommands(OperationName(Verify), StageName(Verify), spsName, bGroup, numOpsTotal).value);
    }
  }

  /** Logging five groups of lines one after another logs their concatenation. */
  lemma ExportLines(c: seq<string>, s1: seq<string>, s2: seq<string>, s3: seq<string>, s4: seq<string>)
    ensures Lines(c) + Lines(s1) + Lines(s2) + Lines(s3) + Lines(s4) == Lines(c + s1 + s2 + s3 + s4)
  {
    LinesConcat(c, s1);
    LinesConcat(c + s1, s2);
    LinesConcat(c + s1 + s2, s3);
    LinesConcat(c + s1 + s2 + s3, s4);
  }
}
