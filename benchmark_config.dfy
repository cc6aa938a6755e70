/**
 * The shared settings of one benchmark session (BenchmarkConfig.java):
 * two bilinear groups, the pre-warm and measured iteration counts and the
 * message length. The groups are opaque values of the type parameters.
 */
module BenchmarkConfig {
  import opened Results
  import opened Text

  datatype Config<TimerGroup, CountingGroup> = Config(
    timerBGroup: TimerGroup,
    countingBGroup: CountingGroup,
    prewarmIterations: int,
    runIterations: int,
    messageLength: int)

  /** What construction guarantees of every config: pre-warming never runs past the measured iterations. */
  predicate Valid<T, C>(c: Config<T, C>) {
    c.prewarmIterations <= c.runIterations
  }

  const PrewarmTooLarge: string :=
    "the amount of pre-warm iterations may not be larger than the amount of measured iterations"

  /** The constructor: rejects more pre-warm than measured iterations and checks nothing else. */
  function NewConfig<T, C>(timerBGroup: T, countingBGroup: C,
                           prewarmIterations: int, runIterations: int, messageLength: int)
    : (r: Result<Config<T, C>>)
    ensures r.Failure? <==> prewarmIterations > runIterations
    ensures r.Failure? ==> r.error == IllegalArgument(PrewarmTooLarge)
    ensures r.Success? ==> Valid(r.value)
    ensures r.Success? ==>
      r.value.timerBGroup == timerBGroup && r.value.countingBGroup == countingBGroup &&
      r.value.prewarmIterations == prewarmIterations && r.value.runIterations == runIterations &&
      r.value.messageLength == messageLength
  {
    if prewarmIterations > runIterations then Failure(IllegalArgument(PrewarmTooLarge))
    else Success(Config(timerBGroup, countingBGroup, prewarmIterations, runIterations, messageLength))
  }

  /** Every pre-warm index of a constructed config addresses one of the runIterations slots. */
  lemma PrewarmIndexInSlots<T, C>(timerBGroup: T, countingBGroup: C,
                                  prewarmIterations: int, runIterations: int, messageLength: int, i: int)
    requires NewConfig(timerBGroup, countingBGroup, prewarmIterations, runIterations, messageLength).Success?
    requires 0 <= i < prewarmIterations
    ensures i < NewConfig(timerBGroup, countingBGroup, prewarmIterations, runIterations, messageLength).value.runIterations
  {
  }

  const IterationsPart: string := " iterations :: messageLength "
  const PrewarmPart: string := " :: "
  const PrewarmSuffix: string := " pre-warm"

  /**
   * `toPrettyString`: "<run> iterations :: messageLength <length> :: <prewarm> pre-warm",
   * from which the three numbers can be read back.
   */
  function PrettyString<T, C>(c: Config<T, C>): (r: string)
    ensures ParsePrettyString(r) == Some((c.runIterations, c.messageLength, c.prewarmIterations))
  {
    PrettyFieldsRead(c.runIterations, c.messageLength, c.prewarmIterations);
    Decimal(c.runIterations) + IterationsPart + Decimal(c.messageLength) + PrewarmPart +
    Decimal(c.prewarmIterations) + PrewarmSuffix
  }

  lemma PrettyFieldsRead(run: int, len: int, pre: int)
    ensures ParsePrettyString(Decimal(run) + IterationsPart + Decimal(len) + PrewarmPart + Decimal(pre) + PrewarmSuffix)
            == Some((run, len, pre))
  {
    var tail1 := Decimal(pre) + PrewarmSuffix + [];
    var tail0 := Decimal(len) + PrewarmPart + tail1;
    assert Decimal(run) + IterationsPart + Decimal(len) + PrewarmPart + Decimal(pre) + PrewarmSuffix ==
           Decimal(run) + IterationsPart + tail0;
    ReadFieldOf(run, IterationsPart, tail0);
    ReadFieldOf(len, PrewarmPart, tail1);
    ReadFieldOf(pre, PrewarmSuffix, []);
  }

  /** Reads an integer followed by the literal text lit; returns the integer and what follows lit. */
  function ReadField(s: string, lit: string): Option<(int, string)> {
    match ReadInt(s)
    case None => None
    case Some((n, rest)) =>
      match StripPrefix(lit, rest)
      case None => None
      case Some(after) => Some((n, after))
  }

  lemma ReadFieldOf(n: int, lit: string, rest: string)
    requires lit != [] && !IsDigit(lit[0])
    ensures ReadField(Decimal(n) + lit + rest, lit) == Some((n, rest))
  {
    assert Decimal(n) + lit + rest == Decimal(n) + (lit + rest);
    assert (lit + rest)[0] == lit[0];
    DecimalRoundTrip(n, lit + rest);
    StripPrefixOfConcat(lit, rest);
  }

  /** Reads the three numbers back out of a pretty string, in the order run, length, prewarm. */
  function ParsePrettyString(s: string): Option<(int, int, int)> {
    match ReadField(s, IterationsPart)
    case None => None
    case Some((run, rest)) =>
      match ReadField(rest, PrewarmPart)
      case None => None
      case Some((length, rest)) =>
        match ReadField(rest, PrewarmSuffix)
        case None => None
        case Some((prewarm, rest)) =>
          if rest == [] then Some((run, length, prewarm)) else None
  }
}
