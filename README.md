# SPSBenchmark, modelled in Dafny

SPSBenchmark is a Java harness that benchmarks structure-preserving signature (SPS)
schemes. This project models its core:

- **`SPSBenchmark`**: the timed driver. It runs the four stages setup, keyGen, sign
  and verify in a fixed order. Each stage is first pre-warmed for iterations
  `0 .. prewarm-1` and then measured for `0 .. run-1`. The keyGen and sign steps
  store their results in two slot arrays that are indexed by iteration number.
  Measuring folds the durations into min, max, sum and average.
- **`BenchmarkConfig`**: the shared settings. The constructor checks that there
  are no more pre-warm iterations than measured ones. `toPrettyString` renders
  the config.
- **`BenchmarkExporter`**: the LaTeX export. It has a static text buffer with
  `clear` / `log` / `logln` / `loglns`. Builders make `\newcommand{\Name}{value}`
  lines whose name parts must be ASCII letters. `exportBenchmarkTeX` derives the
  command prefix and the file name from the scheme name.
- **`BenchmarkUtils`** and **`PrintBenchmarkUtils`**: console formatting. A boxed
  line looks like `* text   *` and is 120 characters wide. There is a dashed
  separator and the banners that `prettyPrintConfig` prints.
- **`BenchmarkLogger`**: a second plain text buffer with `clear` / `log` / `logln`.

## Modelling choices

- Each Java class with mutable state is a Dafny `class`:
  - `SPSBenchmark.Benchmark` keeps the slot arrays as `array` fields and has a ghost `trace` of every step call.
  - `BenchmarkExporter.Exporter` and `BenchmarkLogger.Logger` keep their buffer as a `string` field that their methods reassign.
  - Java's static fields become the fields of one object.
- Everything else is pure functions over datatypes:
  - the config;
  - the measured times;
  - the LaTeX command builders;
  - padding;
  - Java string formatting (`%d`, `%-Ns`, `replace`, `replaceAll("[0-9]+", "")`, `matches("[a-zA-Z]+")`, `toLowerCase`).
- Java exceptions (`IllegalArgumentException`) become the `Failure` case of a `Result`.
- The scheme's operations are function-valued parameters (`SchemeOps`): key generation, signing, verification, and the scheme setup function.
- The clock is a supplied sequence of durations per stage, in whole ticks.
- The export reads the config and the per-stage times from the `Benchmark` object. The scheme name, the mode, a `%,.2f` renderer and the counting group's operation counters are parameters.
- The Java code accepts `runIterations = 0` when it builds a config; only `prewarmIterations > runIterations` is rejected (`BenchmarkConfig.java:44-47`). `BenchmarkConfig.NewConfig` follows the code.

## Model

| member | source | states |
|---|---|---|
| SPSBenchmark.ModeName | src/main/java/spsbenchmark/BenchmarkExporter.java:56-57 | the name a mode prints as is a non-empty run of letters, and the two modes' names differ (Time's has four letters, Counting's does not) |
| SPSBenchmark.ModeNamesDistinct | src/main/java/spsbenchmark/BenchmarkExporter.java:56-57 | the two modes print as different names |
| SPSBenchmark.StageName | src/main/java/spsbenchmark/SPSBenchmark.java:81-90 | the name each stage is run under is a non-empty run of ASCII letters |
| SPSBenchmark.StageNameInjective | src/main/java/spsbenchmark/SPSBenchmark.java:81-90 | no two stages are run under the same name |
| SPSBenchmark.StageIndex | src/main/java/spsbenchmark/SPSBenchmark.java:78-92 | every stage has its own position in the order setup, keyGen, sign, verify |
| SPSBenchmark.Min | src/main/java/spsbenchmark/SPSBenchmark.java:121-123 | the reported minimum is one of the durations and no duration is smaller |
| SPSBenchmark.Max | src/main/java/spsbenchmark/SPSBenchmark.java:125-127 | the reported maximum is one of the durations and no duration is greater |
| SPSBenchmark.FoldIsAggregate | src/main/java/spsbenchmark/SPSBenchmark.java:109-130 | after the first i iterations, the running sum, minimum and maximum of the loop are the sum, least and greatest of those i durations |
| SPSBenchmark.FoldAll | src/main/java/spsbenchmark/SPSBenchmark.java:132-133 | once every measured iteration is folded in, the reported times are (min, max, sum, sum / run) of all the durations |
| SPSBenchmark.AggregateBounds | src/main/java/spsbenchmark/SPSBenchmark.java:133 | the reported average lies between the reported minimum and maximum |
| SPSBenchmark.AggregateAverage | src/main/java/spsbenchmark/SPSBenchmark.java:133 | the average times the number of iterations gives back the total |
| SPSBenchmark.MaxAsWrittenIs | src/main/java/spsbenchmark/SPSBenchmark.java:103-127 | MaxAsWritten is the max loop as written, starting at Double.MIN_VALUE and keeping a delta only when it is greater; the reported maximum is the greatest duration when some duration is positive, and Double.MIN_VALUE when all durations are 0 (see Findings) |
| SPSBenchmark.MaxAsWrittenOfZeros | src/main/java/spsbenchmark/SPSBenchmark.java:103 | with maxTime starting at Double.MIN_VALUE, a stage whose one delta is 0 reports a positive maximum (see Findings) |
| SPSBenchmark.StageCalls | src/main/java/spsbenchmark/SPSBenchmark.java:109 | a counted loop makes max(n, 0) calls, and call k has iteration number k |
| SPSBenchmark.StageCallsSnoc | src/main/java/spsbenchmark/SPSBenchmark.java:109-114 | one more loop iteration appends the call with the next iteration number |
| SPSBenchmark.PlanAt | src/main/java/spsbenchmark/SPSBenchmark.java:78-92 | call k of the whole benchmark belongs to stage number k / (prewarm + run) |
| SPSBenchmark.PlanStagesInOrder | src/main/java/spsbenchmark/SPSBenchmark.java:78-92 | no call of a later stage comes before a call of an earlier one |
| SPSBenchmark.MeasuredCallsInOrder | src/main/java/spsbenchmark/SPSBenchmark.java:181-184 | within a stage, the measured calls follow all pre-warm calls and have iteration numbers 0 .. run-1 in order |
| SPSBenchmark.AppliedStep | src/main/java/spsbenchmark/SPSBenchmark.java:199-211 | running the step at j after steps 0 .. j-1 leaves the slots as steps 0 .. j do |
| SPSBenchmark.SteppedKeepsReady | src/main/java/spsbenchmark/SPSBenchmark.java:199-222 | a step never empties a slot that its own stage reads |
| SPSBenchmark.PrewarmSubsumed | src/main/java/spsbenchmark/SPSBenchmark.java:181-184 | as long as prewarm <= run, the measured run overwrites every slot the pre-warm run wrote, so pre-warming leaves no trace in the slots |
| SPSBenchmark.KeyGenStageFills | src/main/java/spsbenchmark/SPSBenchmark.java:199-202 | a completed keyGen stage has filled every key-pair slot with a generated pair and left the signatures alone |
| SPSBenchmark.SignStageFills | src/main/java/spsbenchmark/SPSBenchmark.java:208-211 | a completed sign stage has stored in slot k the signature of message k under key pair k, and left the key pairs alone |
| SPSBenchmark.QuietStage | src/main/java/spsbenchmark/SPSBenchmark.java:190-193 | setup and verify write no slot |
| SPSBenchmark.Benchmark.constructor | src/main/java/spsbenchmark/SPSBenchmark.java:55-71 | builds the blueprint and slots and runs the whole benchmark: the full call plan in order, each stage's measured times, and at the end every key slot holds a generated pair and every signature slot holds the signature of its message |
| SPSBenchmark.Benchmark.BenchmarkTimeResult | src/main/java/spsbenchmark/BenchmarkExporter.java:44-47 | looked up by name: the times the stage run under that name measured, for each of the four names; nothing for any other name |
| SPSBenchmark.Benchmark.RunTimedBenchmarks | src/main/java/spsbenchmark/SPSBenchmark.java:78-92 | the calls are the four stage plans in order; stage k reports the aggregate of its durations; the final slot contents are as in the constructor |
| SPSBenchmark.Benchmark.RunTimeBenchmark | src/main/java/spsbenchmark/SPSBenchmark.java:181-184 | pre-warm, then measure: the calls are the stage's plan, the times are the aggregate, the slots are as after the measured run alone |
| SPSBenchmark.Benchmark.RunTimeBenchmarkPhase | src/main/java/spsbenchmark/SPSBenchmark.java:142-176 | pre-warm calls the step for 0 .. prewarm-1 and measures nothing; otherwise the step is measured over 0 .. run-1 |
| SPSBenchmark.Benchmark.MeasureStepTimes | src/main/java/spsbenchmark/SPSBenchmark.java:98-134 | calls the step for 0 .. run-1 in order, leaves the slots as those calls do, and returns the aggregate of the durations |
| SPSBenchmark.Benchmark.RunStep | src/main/java/spsbenchmark/SPSBenchmark.java:81-90 | the step a stage passes as its IntConsumer: one call at i that extends the loop's calls and slot effect from 0 .. i-1 to 0 .. i |
| SPSBenchmark.Benchmark.RunSetup | src/main/java/spsbenchmark/SPSBenchmark.java:190-193 | builds a throwaway scheme instance and changes no slot |
| SPSBenchmark.Benchmark.RunKeyGen | src/main/java/spsbenchmark/SPSBenchmark.java:199-202 | writes a generated key pair into slot i and nowhere else |
| SPSBenchmark.Benchmark.RunSign | src/main/java/spsbenchmark/SPSBenchmark.java:208-211 | writes the signature of message i under key pair i into signature slot i and nowhere else |
| SPSBenchmark.Benchmark.RunVerify | src/main/java/spsbenchmark/SPSBenchmark.java:217-223 | returns the scheme's verdict on message i with signature and key pair i, and writes no slot |
| BenchmarkConfig.NewConfig | src/main/java/spsbenchmark/BenchmarkConfig.java:39-52 | fails, with the constructor's message, exactly when prewarm > run; otherwise it stores the five arguments unchanged |
| BenchmarkConfig.PrewarmIndexInSlots | src/main/java/spsbenchmark/BenchmarkConfig.java:43-47 | every pre-warm index of an accepted config addresses one of the runIterations slots |
| BenchmarkConfig.PrettyString | src/main/java/spsbenchmark/BenchmarkConfig.java:73-78 | the pretty string can be parsed back, and gives run, message length and prewarm, in that order |
| BenchmarkUtils.PrettyStringFits | src/main/java/spsbenchmark/BenchmarkConfig.java:73-78 | with the three numbers in Java's int range the pretty string has at most 75 characters, so its console line is exactly 120 wide |
| BenchmarkUtils.PrettyStringOverflows | src/main/java/spsbenchmark/BenchmarkUtils.java:16-19 | a remark about the model, not reachable behaviour: padString never truncates, so the 120-character bound of PrettyStringFits depends on the 32-bit range; a run count of 10^117 or more, which a Java int cannot hold, would make the config line wider than the console |
| Text.DecimalInt32Length | src/main/java/spsbenchmark/BenchmarkConfig.java:74-77 | a Java int prints in at most 11 characters, its sign included |
| Text.Decimal | src/main/java/spsbenchmark/BenchmarkConfig.java:74-77 | an int as %s / %d prints it: non-empty; digits, after a leading minus sign exactly when the value is negative; no leading zero unless the magnitude is 0 |
| Text.DecimalRoundTrip | src/main/java/spsbenchmark/BenchmarkConfig.java:74-77 | reading the decimal text of n gives back n, provided no digit follows |
| Text.PadRight | src/main/java/spsbenchmark/BenchmarkUtils.java:18 | %-ws: s itself, then spaces up to width w; never truncated |
| Text.ReplaceChar | src/main/java/spsbenchmark/BenchmarkUtils.java:32 | replace(" ", "-"): the same length, every space replaced and every other character kept |
| Text.RemoveSpaces | src/main/java/spsbenchmark/BenchmarkExporter.java:138-139 | replace(" ", ""): no space remains |
| Text.RemoveDigits | src/main/java/spsbenchmark/BenchmarkExporter.java:39 | replaceAll("[0-9]+", ""): no digit remains |
| Text.ToLowerAscii | src/main/java/spsbenchmark/BenchmarkExporter.java:56-57 | toLowerCase on ASCII: the same length, each character lowered and nothing else changed |
| Text.ToLowerAsciiIdempotent | src/main/java/spsbenchmark/BenchmarkExporter.java:56-57 | lowering twice is lowering once |
| BenchmarkExporter.Exporter.constructor | src/main/java/spsbenchmark/BenchmarkExporter.java:16 | the buffer starts empty |
| BenchmarkExporter.Exporter.Clear | src/main/java/spsbenchmark/BenchmarkExporter.java:18-20 | the buffer is emptied |
| BenchmarkExporter.Exporter.Log | src/main/java/spsbenchmark/BenchmarkExporter.java:22-24 | the message is appended |
| BenchmarkExporter.Exporter.LogLn | src/main/java/spsbenchmark/BenchmarkExporter.java:25-28 | the message and a newline are appended |
| BenchmarkExporter.Exporter.LogLns | src/main/java/spsbenchmark/BenchmarkExporter.java:29-33 | every message is appended with its newline, in order |
| BenchmarkExporter.LinesShape | src/main/java/spsbenchmark/BenchmarkExporter.java:29-33 | loglns of no messages logs nothing; otherwise the text ends with the last message and a newline |
| BenchmarkExporter.LinesConcat | src/main/java/spsbenchmark/BenchmarkExporter.java:29-33 | logging two message lists one after the other logs their concatenation |
| BenchmarkExporter.SplitLinesOfLines | src/main/java/spsbenchmark/BenchmarkExporter.java:29-33 | messages without newlines are read back from the buffer one line each |
| BenchmarkExporter.NewCommandRoundTrip | src/main/java/spsbenchmark/BenchmarkExporter.java:138-139 | a command line gives back its name and body, as long as the name has no closing brace |
| BenchmarkExporter.SpacedCommandName | src/main/java/spsbenchmark/BenchmarkExporter.java:157-158 | removing the spaces of the formatted command joins its four space-free words into the command name and removes the spaces of the body |
| BenchmarkExporter.ConfigValueTeXCommand | src/main/java/spsbenchmark/BenchmarkExporter.java:131-140 | fails with the non-alpha message exactly when the config name or scheme name is not all letters; otherwise the command `\<sps><Mode>Config<name>` with the decimal value |
| BenchmarkExporter.ConfigValueReadBack | src/main/java/spsbenchmark/BenchmarkExporter.java:131-140 | an accepted config command can be parsed, and its body reads back as the configured number |
| BenchmarkExporter.ConfigTeXCommands | src/main/java/spsbenchmark/BenchmarkExporter.java:88-101 | fails exactly when the scheme name is not all letters; otherwise three commands for Iterations, MessageLength and PrewarmIterations, with run, message length and prewarm in that order |
| BenchmarkExporter.MilliFromNano | src/main/java/spsbenchmark/BenchmarkTimes.java:41 | the milliseconds times 10^6 are the nanoseconds |
| BenchmarkExporter.TimeResultTeXCommand | src/main/java/spsbenchmark/BenchmarkExporter.java:149-159 | fails exactly when one of the three names is not all letters; otherwise `\<sps>Time<op><timer>` with the rendered milliseconds, spaces removed |
| BenchmarkExporter.TimeResultTeXCommands | src/main/java/spsbenchmark/BenchmarkExporter.java:108-123 | fails exactly when the operation or scheme name is not all letters; otherwise four commands Avg, Min, Max, Sum, holding avg, min, max and sum converted to milliseconds |
| BenchmarkExporter.CountingResultTeXCommand | src/main/java/spsbenchmark/BenchmarkExporter.java:186-190 | checks no name, and the result never holds a space; with letter names it is `\<sps>Count<op><group>` with the count |
| BenchmarkExporter.GroupName | src/main/java/spsbenchmark/BenchmarkExporter.java:174-176 | each group's tag is a single upper-case letter, so it passes the letters check |
| BenchmarkExporter.CountingResultTeXCommands | src/main/java/spsbenchmark/BenchmarkExporter.java:166-179 | fails exactly when the operation or scheme name is not all letters; otherwise the commands for groups G, H, T, holding the counters of G1, G2 and GT for the group operation |
| BenchmarkExporter.OperationName | src/main/java/spsbenchmark/BenchmarkExporter.java:44-53 | each stage's operation name is all letters, so the per-stage checks always pass |
| BenchmarkExporter.ExportName | src/main/java/spsbenchmark/BenchmarkExporter.java:39 | the command prefix is the scheme name without any digit |
| BenchmarkExporter.ExportNameOfVersioned | src/main/java/spsbenchmark/BenchmarkExporter.java:39 | letters followed by a version number export as the letters alone |
| BenchmarkExporter.ExportNameIdempotent | src/main/java/spsbenchmark/BenchmarkExporter.java:39 | removing the digits twice is removing them once |
| BenchmarkExporter.ExportNameMembers | src/main/java/spsbenchmark/BenchmarkExporter.java:39 | a character occurs in the prefix exactly when it occurs in the scheme name and is not a digit |
| BenchmarkExporter.ExportFileName | src/main/java/spsbenchmark/BenchmarkExporter.java:56-57 | the file name is as long as mode, underscore, scheme name and suffix together, and holds no upper-case letter |
| BenchmarkExporter.ExportFileNameParts | src/main/java/spsbenchmark/BenchmarkExporter.java:56-57 | the file name is "time" or "counting", "_", the lowered scheme name, "_results.tex" |
| BenchmarkExporter.ExportFileNameRecovers | src/main/java/spsbenchmark/BenchmarkExporter.java:56-57 | a lower-case scheme name can be read back from the file name |
| BenchmarkExporter.StageCommands | src/main/java/spsbenchmark/BenchmarkExporter.java:43-54 | a stage has four time commands in Time mode and three counting commands in Counting mode |
| BenchmarkExporter.ExportCommands | src/main/java/spsbenchmark/BenchmarkExporter.java:37-54 | fails with the non-alpha message exactly when the digit-free scheme name is not all letters; otherwise 3 + 4·4 lines in Time mode and 3 + 4·3 in Counting mode |
| BenchmarkExporter.ExportLayoutTime | src/main/java/spsbenchmark/BenchmarkExporter.java:41-47 | a Time-mode export has 19 lines: lines 0-2 are the Iterations, MessageLength and PrewarmIterations commands holding the config's values; line 3 + 4·i + t is the Avg/Min/Max/Sum command t of stage i (Setup, KeyGen, Sign, Verify), holding that stage's stored time in milliseconds |
| BenchmarkExporter.ExportLayoutCounting | src/main/java/spsbenchmark/BenchmarkExporter.java:41-53 | a Counting-mode export has 15 lines: lines 0-2 are the config commands; line 3 + 3·i + g is the G1/G2/GT command g of stage i, holding numOpsTotal for that group and the name the stage is run under (setup, keyGen, sign, verify) |
| BenchmarkExporter.ExportLines | src/main/java/spsbenchmark/BenchmarkExporter.java:41-54 | five loglns calls in a row leave the lines of the concatenated lists |
| BenchmarkExporter.Exporter.ExportBenchmarkTeX | src/main/java/spsbenchmark/BenchmarkExporter.java:35-59 | on success: the buffer holds exactly the export lines built from the benchmark's config and stored times, and the result is the file name. On failure: the error is the non-alpha message and the buffer is empty |
| BenchmarkExporter.Exporter.LogStageResults | src/main/java/spsbenchmark/BenchmarkExporter.java:43-54 | appends the commands of setup, keyGen, sign and verify, in that order, for the benchmark's mode |
| BenchmarkExporter.Exporter.LogTimeResults | src/main/java/spsbenchmark/BenchmarkExporter.java:43-48 | appends the time commands of setup, keyGen, sign and verify, in that order, each with the times the benchmark stored for that stage |
| BenchmarkExporter.Exporter.LogStageTimes | src/main/java/spsbenchmark/BenchmarkExporter.java:44 | looks the stage's times up by the stage's name and appends its four time commands |
| BenchmarkExporter.Exporter.LogCountingResults | src/main/java/spsbenchmark/BenchmarkExporter.java:49-54 | appends the counting commands of setup, keyGen, sign and verify, in that order |
| BenchmarkUtils.PadString | src/main/java/spsbenchmark/BenchmarkUtils.java:16-19 | "* ", then s, then spaces, then "*": targetLength wide when s fits in targetLength - 3, otherwise s is kept whole |
| BenchmarkUtils.PadStringToConsole | src/main/java/spsbenchmark/BenchmarkUtils.java:24-26 | a text that fits gives a line of exactly the console width 120, a longer one is three wider; the line is "* ", the text, spaces only, then "*" |
| BenchmarkUtils.Separator | src/main/java/spsbenchmark/BenchmarkUtils.java:31-33 | 120 characters: '*' at both ends and '-' between |
| BenchmarkUtils.UnpadPadString | src/main/java/spsbenchmark/BenchmarkUtils.java:16-19 | a padded line gives back its text up to trailing spaces |
| BenchmarkUtils.UnpadPadStringExact | src/main/java/spsbenchmark/BenchmarkUtils.java:16-19 | a text that does not end in a space is given back exactly |
| BenchmarkUtils.BannerOfTwo | src/main/java/spsbenchmark/BenchmarkUtils.java:40-46 | a block of two texts is a separator, the two padded texts, a separator, and each text reads back from its line |
| BenchmarkUtils.BannerOfThree | src/main/java/spsbenchmark/PrintBenchmarkUtils.java:45-58 | a block of three texts is a separator, the three padded texts, a separator, and each text reads back from its line |
| BenchmarkUtils.Banner | src/main/java/spsbenchmark/BenchmarkUtils.java:38-48 | a separator, each text as a padded console line, a separator |
| BenchmarkUtils.StartMessageTrimmed | src/main/java/spsbenchmark/BenchmarkUtils.java:42 | the start message ends in one space, and padding cannot tell that space from the padding after it |
| BenchmarkUtils.ConfigBanner | src/main/java/spsbenchmark/BenchmarkUtils.java:38-48 | four lines: a separator, the start message padded to a line exactly 120 wide, the config's pretty string padded to the console, a separator; the two texts read back from their lines |
| BenchmarkUtils.StartLineFits | src/main/java/spsbenchmark/BenchmarkUtils.java:42-43 | the start line is exactly the console width |
| PrintBenchmarkUtils.ModeStartMessage | src/main/java/spsbenchmark/PrintBenchmarkUtils.java:47-48 | "[Counting]" in Counting mode, "[Timer]" otherwise; the message fits the console |
| PrintBenchmarkUtils.ModeStartMessageNamesMode | src/main/java/spsbenchmark/PrintBenchmarkUtils.java:47-48 | the Counting message is printed exactly in Counting mode |
| PrintBenchmarkUtils.ModeConfigBanner | src/main/java/spsbenchmark/PrintBenchmarkUtils.java:43-60 | five lines: a separator; the mode's start message padded to a line exactly 120 wide; the counting group's class name in Counting mode and the timer group's description otherwise, padded; the config's pretty string, padded; a separator. Each text reads back from its line |
| PrintBenchmarkUtils.ModeStartLineFits | src/main/java/spsbenchmark/PrintBenchmarkUtils.java:47-50 | either start line is exactly as wide as the separator |
| BenchmarkLogger.Text | src/main/java/spsbenchmark/BenchmarkLogger.java:13-19 | log appends the message; logln appends the message and one newline |
| BenchmarkLogger.RenderedNewlines | src/main/java/spsbenchmark/BenchmarkLogger.java:16-19 | when no message holds a newline, the buffer holds one newline per logln call |
| BenchmarkLogger.Logger.constructor | src/main/java/spsbenchmark/BenchmarkLogger.java:7 | the buffer starts empty |
| BenchmarkLogger.Logger.Clear | src/main/java/spsbenchmark/BenchmarkLogger.java:9-11 | the buffer is emptied |
| BenchmarkLogger.Logger.Log | src/main/java/spsbenchmark/BenchmarkLogger.java:13-15 | the message is appended, and the buffer stays the rendering of the calls since the last clear |
| BenchmarkLogger.Logger.LogLn | src/main/java/spsbenchmark/BenchmarkLogger.java:16-19 | the message and a newline are appended, and the buffer stays the rendering of the calls since the last clear |

## Left out

- Console output is not modelled:
  - the START/DONE lines of runTimeBenchmark (`SPSBenchmark.java:144-174`);
  - `BenchmarkTimes.getPrettyString`;
  - `printSeparator`;
  - the printing of `prettyPrintConfig`.

  The banner functions give the lines that would be printed.
- File output is not modelled: `flushLogToFile`, `flushLoggerToBenchmarkFile`, `GetExportDirectoryPath` and `EXPORT_PATH`. `ExportBenchmarkTeX` returns the file name and leaves the text in `history`.
- The clock (`System.nanoTime`) is a supplied sequence of durations per stage, in whole ticks.
- Java `double` arithmetic is exact real arithmetic: no rounding, NaN or infinity.
- The cryptography is function-valued parameters:
  - `generateKeyPair`, `sign`, `verify` and the scheme setup function;
  - key generation is deterministic, so the model fixes which slot is written but not that key pairs differ;
  - exceptions thrown by these operations are not modelled.
- SPSBenchmark.Benchmark.constructor: requires `runIterations >= 1` and at least `runIterations` messages. For zero iterations the Java code reports a NaN average. With too few messages it throws an index exception in runSign. Neither outcome is modelled.
- BenchmarkUtils.PadString: requires `targetLength >= 4`. Java's formatter rejects a width below 1 with an exception, and that exception is not modelled as an error result.
- BenchmarkExporter.TimeResultTeXCommand: the `%,.2f` rendering of milliseconds is a parameter `formatMs`. The model states where the rendered text goes, not its digits.
- Text.ToLowerAscii: lowers ASCII letters only. `toLowerCase(Locale.ROOT)` of non-ASCII letters is not modelled.
- BenchmarkExporter.Exporter.ExportBenchmarkTeX takes four inputs as parameters:
  - the scheme name and the mode, because `getSchemeName`, `getMode` and `BenchmarkMode` are not part of this model (`BenchmarkConfig.java` holds no scheme name);
  - the `%,.2f` renderer;
  - the counting group's `getNumOpsTotal` counters, as `numOpsTotal`.
- `BenchmarkConfig.getbGroup()` is not part of this model. The scheme setup calls use the timer group.
- Operation counting is not modelled: the counters of the counting bilinear group are the parameter `numOpsTotal`. MessageGenerator and the entry points (`BenchmarkRunner`, `GrothVerifyCountingBenchmark`, `HelloWorld`) are not part of this model.
- The getters of BenchmarkConfig (`BenchmarkConfig.java:54-70`) are the fields of the `Config` datatype.
- `padString`, `padString(s)` and `separator` of PrintBenchmarkUtils (`PrintBenchmarkUtils.java:14-31`) are character-for-character those of BenchmarkUtils. They are modelled once, by `BenchmarkUtils.PadString`, `BenchmarkUtils.PadStringToConsole` and `BenchmarkUtils.Separator`.
- Helper methods split the two mode blocks of `exportBenchmarkTeX` out of it, for proof size: `BenchmarkExporter.Exporter.LogStageResults`, `BenchmarkExporter.Exporter.LogTimeResults`, `BenchmarkExporter.Exporter.LogStageTimes` and `BenchmarkExporter.Exporter.LogCountingResults`. The order of the calls is the source's.
- SPSBenchmark.Benchmark.BenchmarkTimeResult: `getBenchmarkTimeResult` and the storage of the measured times are not part of this model. In `SPSBenchmark.java:161-171`, runTimeBenchmark prints the times of `measureStepTimes` and then drops them. The `timeResults` field and its lookup by stage name stand in for the missing code. The name lookup is the one the export's calls (`BenchmarkExporter.java:44-47`) need.
- BenchmarkConfig.NewConfig: a negative `runIterations` passes the constructor's check whenever prewarm <= run, for example run = -1 with prewarm = -2. The Java code then fails with `NegativeArraySizeException` when it allocates the slot arrays (`SPSBenchmark.java:67-68`). The model's `Benchmark` constructor requires `runIterations >= 1`, so that failure is not modelled.
- SPSBenchmark.Benchmark.MeasureStepTimes: at zero iterations Java reports minimum `Double.MAX_VALUE`, maximum `Double.MIN_VALUE` and a NaN average. The model requires at least one iteration and does not model these values.
- SPSBenchmark.Benchmark.MeasureStepTimes: computes the corrected maximum. For all-zero durations it reports 0, where the code as written reports 4.9E-324. The as-written loop is `MaxAsWritten` (see the Findings row).
- Java's formatting is modelled for ASCII text only. `%d` follows the JVM's default locale, and the model writes ASCII digits. `%-Ns` pads to N UTF-16 units, and the model pads to N characters.
- BenchmarkUtils.ConfigBanner and PrintBenchmarkUtils.ModeConfigBanner: the config line is exactly 120 wide only when the pretty string fits the console. `BenchmarkUtils.PrettyStringFits` proves that it fits for numbers in Java's int range. The model's ints are unbounded, so the banners do not promise the width of that line for all configs. They do not promise it for the group line either, whose text is a library-supplied description. In both cases, as in Java, a longer text makes its line longer and is never truncated.

## Findings

| source | as written | input that shows it | evidently intended | confidence | as-written member | corrected member |
|---|---|---|---|---|---|---|
| src/main/java/spsbenchmark/SPSBenchmark.java:103 | `maxTime` starts at `Double.MIN_VALUE`, the smallest positive double, not the most negative one | a measured stage whose every delta is 0.0, as with a clock coarser than the step: the reported maximum is 4.9E-324 instead of 0 | the maximum is the greatest measured duration, as with `minTime` starting at `Double.MAX_VALUE` | not executed; low impact, it needs a zero delta | SPSBenchmark.MaxAsWrittenIs | SPSBenchmark.FoldIsAggregate |
