/**
 * Console formatting of the benchmark harness (BenchmarkUtils.java): boxed
 * lines `* text   *` of a fixed width and a dashed separator. Printing is
 * not part of this model; the functions give the lines that are printed.
 */
module BenchmarkUtils {
  import opened Results
  import opened Text
  import BenchmarkConfig

  const ConsoleWidth: int := 120

  /**
   * padString(s, targetLength): `String.format("* %-" + (targetLength - 3) + "s*", s)`.
   * A width below 1 is a malformed format in Java, so targetLength is at least 4.
   */
  function PadString(s: string, targetLength: int): (r: string)
    requires targetLength >= 4
    ensures |r| == if |s| <= targetLength - 3 then targetLength else |s| + 3
    ensures r[..2] == "* " && r[2..|s| + 2] == s && r[|r| - 1] == '*'
    ensures forall i :: |s| + 2 <= i < |r| - 1 ==> r[i] == ' '
  {
    "* " + PadRight(s, targetLength - 3) + "*"
  }

  /** padString(s): padded to the console width. */
  function PadStringToConsole(s: string): (r: string)
    ensures |s| <= ConsoleWidth - 3 ==> |r| == ConsoleWidth
    ensures |s| > ConsoleWidth - 3 ==> |r| == |s| + 3
    ensures r[..2] == "* " && r[2..|s| + 2] == s && r[|r| - 1] == '*'
    ensures forall i :: |s| + 2 <= i < |r| - 1 ==> r[i] == ' '
  {
    PadString(s, ConsoleWidth)
  }

  /** separator(): an empty padded line with its spaces turned into dashes. */
  function Separator(): (r: string)
    ensures |r| == ConsoleWidth
    ensures r[0] == '*' && r[ConsoleWidth - 1] == '*'
    ensures forall i :: 0 < i < ConsoleWidth - 1 ==> r[i] == '-'
  {
    var line := PadString("", ConsoleWidth);
    assert line[1] == ' ' by {
      assert line[..2] == "* ";
    }
    ReplaceChar(line, ' ', '-')
  }

  // ---------------------------------------------------------------------
  // Reading a padded line back
  // ---------------------------------------------------------------------

  /** s without its trailing spaces. */
  function TrimRight(s: string): (r: string)
    ensures |r| <= |s| && r == s[..|r|]
    ensures r == [] || r[|r| - 1] != ' '
    ensures forall i :: |r| <= i < |s| ==> s[i] == ' '
  {
    if s == [] || s[|s| - 1] != ' ' then s else TrimRight(s[..|s| - 1])
  }

  lemma {:induction false} TrimRightPadded(s: string, k: nat)
    ensures TrimRight(s + Spaces(k)) == TrimRight(s)
  {
    if k > 0 {
      var t := s + Spaces(k);
      assert t[..|t| - 1] == s + Spaces(k - 1);
      TrimRightPadded(s, k - 1);
    } else {
      assert s + Spaces(0) == s;
    }
  }

  /** The text of a boxed line: what lies between `* ` and the final `*`, trailing spaces dropped. */
  function Unpad(line: string): Option<string> {
    if |line| >= 3 && line[..2] == "* " && line[|line| - 1] == '*' then Some(TrimRight(line[2..|line| - 1]))
    else None
  }

  /** A padded line gives back its text up to trailing spaces, which padding cannot tell apart. */
  lemma UnpadPadString(s: string, targetLength: int)
    requires targetLength >= 4
    ensures Unpad(PadString(s, targetLength)) == Some(TrimRight(s))
  {
    var padded := PadRight(s, targetLength - 3);
    var r := PadString(s, targetLength);
    assert r == "* " + padded + "*";
    assert r[2..|r| - 1] == padded;
    var k := if |s| < targetLength - 3 then targetLength - 3 - |s| else 0;
    assert padded == s + Spaces(k);
    TrimRightPadded(s, k);
  }

  /** So a text that does not end in a space is given back exactly. */
  lemma UnpadPadStringExact(s: string, targetLength: int)
    requires targetLength >= 4
    requires s == [] || s[|s| - 1] != ' '
    ensures Unpad(PadString(s, targetLength)) == Some(s)
  {
    UnpadPadString(s, targetLength);
  }

  // ---------------------------------------------------------------------
  // prettyPrintConfig
  // ---------------------------------------------------------------------

  /** A printed block: a separator, each text as a padded console line, a separator. */
  function Banner(texts: seq<string>): (lines: seq<string>)
    ensures |lines| == |texts| + 2
    ensures lines[0] == Separator() && lines[|lines| - 1] == Separator()
    ensures forall k :: 0 <= k < |texts| ==> lines[k + 1] == PadStringToConsole(texts[k])
  {
    var separator, body := Separator(), PaddedLines(texts);
    Framed(separator, body);
    [separator] + body + [separator]
  }

  lemma Framed<T>(edge: T, body: seq<T>)
    ensures var r := [edge] + body + [edge];
      |r| == |body| + 2 && r[0] == edge && r[|r| - 1] == edge && forall k :: 0 <= k < |body| ==> r[k + 1] == body[k]
  {
  }

  /** Each text padded to the console width, in order. */
  function PaddedLines(texts: seq<string>): (r: seq<string>)
    ensures |r| == |texts|
    ensures forall k :: 0 <= k < |texts| ==> r[k] == PadStringToConsole(texts[k])
  {
    if texts == [] then [] else PaddedLines(texts[..|texts| - 1]) + [PadStringToConsole(texts[|texts| - 1])]
  }

  /** Every text line of a block gives back its text up to trailing spaces. */
  lemma BannerText(texts: seq<string>, k: int)
    requires 0 <= k < |texts|
    ensures Unpad(Banner(texts)[k + 1]) == Some(TrimRight(texts[k]))
  {
    UnpadPadString(texts[k], ConsoleWidth);
  }

  /** A block of three texts gives each of them back on its own line. */
  lemma BannerOfThree(t0: string, t1: string, t2: string)
    ensures var lines := Banner([t0, t1, t2]);
      |lines| == 5 && lines[0] == lines[4] == Separator() &&
      lines[1] == PadStringToConsole(t0) && lines[2] == PadStringToConsole(t1) && lines[3] == PadStringToConsole(t2) &&
      Unpad(lines[1]) == Some(TrimRight(t0)) && Unpad(lines[2]) == Some(TrimRight(t1)) &&
      Unpad(lines[3]) == Some(TrimRight(t2))
  {
    BannerText([t0, t1, t2], 0);
    BannerText([t0, t1, t2], 1);
    BannerText([t0, t1, t2], 2);
  }

  /** A block of two texts gives each of them back on its own line. */
  lemma BannerOfTwo(t0: string, t1: string)
    ensures var lines := Banner([t0, t1]);
      |lines| == 4 && lines[0] == lines[3] == Separator() &&
      lines[1] == PadStringToConsole(t0) && lines[2] == PadStringToConsole(t1) &&
      Unpad(lines[1]) == Some(TrimRight(t0)) && Unpad(lines[2]) == Some(TrimRight(t1))
  {
    BannerText([t0, t1], 0);
    BannerText([t0, t1], 1);
  }

  const StartMessage: string := "Running benchmark with config... "

  /** The start message ends in one space, which a padded line does not keep apart from its padding. */
  lemma StartMessageTrimmed()
    ensures TrimRight(StartMessage) == "Running benchmark with config..."
  {
    assert StartMessage[..|StartMessage| - 1] == "Running benchmark with config...";
  }

  /**
   * The lines prettyPrintConfig prints: separator, start message, the config,
   * separator, each text padded to the console width. The start line is
   * exactly as wide as the separators; the config line is too whenever the
   * config's numbers are 32-bit ints (PrettyStringFits).
   */
  function ConfigBanner<G, C>(config: BenchmarkConfig.Config<G, C>): (lines: seq<string>)
    ensures |lines| == 4 && lines[0] == lines[3] == Separator()
    ensures lines[1] == PadStringToConsole(StartMessage) && |lines[1]| == ConsoleWidth
    ensures lines[2] == PadStringToConsole(BenchmarkConfig.PrettyString(config))
    ensures Unpad(lines[1]) == Some("Running benchmark with config...")
    ensures Unpad(lines[2]) == Some(TrimRight(BenchmarkConfig.PrettyString(config)))
  {
    var pretty := BenchmarkConfig.PrettyString(config);
    BannerOfTwo(StartMessage, pretty);
    StartMessageTrimmed();
    StartLineFits();
    Banner([StartMessage, pretty])
  }

  /** The start line fills the console exactly. */
  lemma StartLineFits()
    ensures |PadStringToConsole(StartMessage)| == ConsoleWidth
  {
  }

  predicate IsInt32(n: int) { -0x8000_0000 <= n < 0x8000_0000 }

  /**
   * With the config's numbers in Java's int range the pretty string is at most
   * 75 characters, so its padded line is exactly as wide as the separators.
   */
  lemma PrettyStringFits<G, C>(config: BenchmarkConfig.Config<G, C>)
    requires IsInt32(config.runIterations) && IsInt32(config.messageLength) && IsInt32(config.prewarmIterations)
    ensures |BenchmarkConfig.PrettyString(config)| <= 75
    ensures |PadStringToConsole(BenchmarkConfig.PrettyString(config))| == ConsoleWidth
  {
    DecimalInt32Length(config.runIterations);
    DecimalInt32Length(config.messageLength);
    DecimalInt32Length(config.prewarmIterations);
  }

  /**
   * A remark about the model rather than reachable behaviour: the width bound of
   * PrettyStringFits rests on the 32-bit range alone, since padString never
   * truncates. A run count of 10^117 or more, which a Java int cannot hold,
   * would make the config line wider than the console.
   */
  lemma PrettyStringOverflows<G, C>(config: BenchmarkConfig.Config<G, C>)
    requires config.runIterations >= Pow10(117)
    ensures |PadStringToConsole(BenchmarkConfig.PrettyString(config))| > ConsoleWidth
  {
    NatDigitsLengthAtLeast(config.runIterations, 117);
  }
}
