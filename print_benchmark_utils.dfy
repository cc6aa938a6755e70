/**
 * The mode-aware console banner (PrintBenchmarkUtils.java). Its padString,
 * padString(s) and separator are the very code of BenchmarkUtils and are
 * taken from there; what this class adds is the start message naming the
 * benchmark mode and the line describing the bilinear group in use.
 */
module PrintBenchmarkUtils {
  import opened Results
  import BenchmarkConfig
  import opened BenchmarkUtils
  import opened SPSBenchmark

  const CountingStartMessage: string := "Running [Counting] benchmark with config... "
  const TimerStartMessage: string := "Running [Timer] benchmark with config... "

  /**
   * The start message of prettyPrintConfig, `"Running %s benchmark with config... "`
   * filled with "[Counting]" for counting benchmarks and "[Timer]" otherwise.
   */
  function ModeStartMessage(mode: Mode): (r: string)
    ensures mode == Counting ==> r == CountingStartMessage
    ensures mode != Counting ==> r == TimerStartMessage
    ensures |r| <= ConsoleWidth - 3
  {
    if mode == Counting then CountingStartMessage else TimerStartMessage
  }

  /** The start message tells the two modes apart. */
  lemma ModeStartMessageNamesMode(mode: Mode)
    ensures ModeStartMessage(mode) == CountingStartMessage <==> mode == Counting
  {
    assert CountingStartMessage[9] != TimerStartMessage[9];
  }

  /**
   * The lines prettyPrintConfig prints: separator, start message, the group
   * line, the config, separator, each text padded to the console width. The
   * group line describes the counting group in Counting mode (Java's
   * `getClass().getSimpleName()`) and the timer group otherwise (its
   * `toString()`); both descriptions are library code and are inputs here.
   * The start line is exactly as wide as the separators; the config line is
   * too whenever the config's numbers are 32-bit ints (PrettyStringFits).
   */
  function ModeConfigBanner<G, C>(config: BenchmarkConfig.Config<G, C>, mode: Mode,
                                  describeTimer: G -> string, describeCounting: C -> string)
    : (lines: seq<string>)
    ensures |lines| == 5 && lines[0] == lines[4] == Separator()
    ensures lines[1] == PadStringToConsole(ModeStartMessage(mode)) && |lines[1]| == ConsoleWidth
    ensures mode == Counting ==> lines[2] == PadStringToConsole(describeCounting(config.countingBGroup))
    ensures mode != Counting ==> lines[2] == PadStringToConsole(describeTimer(config.timerBGroup))
    ensures lines[3] == PadStringToConsole(BenchmarkConfig.PrettyString(config))
    ensures Unpad(lines[1]) == Some(TrimRight(ModeStartMessage(mode)))
    ensures mode == Counting ==> Unpad(lines[2]) == Some(TrimRight(describeCounting(config.countingBGroup)))
    ensures mode != Counting ==> Unpad(lines[2]) == Some(TrimRight(describeTimer(config.timerBGroup)))
    ensures Unpad(lines[3]) == Some(TrimRight(BenchmarkConfig.PrettyString(config)))
  {
    var startMessage := ModeStartMessage(mode);
    var group := if mode == Counting then describeCounting(config.countingBGroup) else describeTimer(config.timerBGroup);
    var pretty := BenchmarkConfig.PrettyString(config);
    BannerOfThree(startMessage, group, pretty);
    ModeStartLineFits(mode);
    Banner([startMessage, group, pretty])
  }

  /** Both start messages fit the console, so their lines are exactly as wide as the separator. */
  lemma ModeStartLineFits(mode: Mode)
    ensures |PadStringToConsole(ModeStartMessage(mode))| == |Separator()| == ConsoleWidth
  {
  }
}
