/**
 * The timed benchmark driver (SPSBenchmark.java).
 *
 * A benchmark owns a scheme blueprint, the messages and two slot arrays
 * indexed by iteration number. It runs the four stages setup, keyGen,
 * sign and verify in that order; each stage first pre-warms its step for
 * indices 0 .. prewarm-1 and then measures it for indices 0 .. run-1,
 * folding the measured durations into min, max, sum and average.
 *
 * The scheme's operations are opaque functions (SchemeOps), the clock is
 * a supplied sequence of durations per stage, and the ghost `trace`
 * records every step call, in order, so that the number, indices and
 * order of the calls can be stated.
 */
module SPSBenchmark {
  import opened Results
  import opened Text
  import BenchmarkConfig

  /** The two benchmark modes named by the exporter and the console printer. */
  datatype Mode = Time | Counting

  /** An enum constant's name, as `%s` prints it. */
  function ModeName(m: Mode): (r: string)
    ensures IsLetters(r)
    ensures m == Time <==> |r| == 4
  {
    match m
    case Time => LettersOf("Time"); "Time"
    case Counting => LettersOf("Counting"); "Counting"
  }

  datatype Stage = Setup | KeyGen | Sign | Verify

  /** The fixed stage order of runTimedBenchmarks. */
  const Stages: seq<Stage> := [Setup, KeyGen, Sign, Verify]

  function StageIndex(s: Stage): (k: nat)
    ensures k < |Stages| && Stages[k] == s
  {
    match s
    case Setup => 0
    case KeyGen => 1
    case Sign => 2
    case Verify => 3
  }

  /** The benchmark name each stage is run under. */
  function StageName(s: Stage): (r: string)
    ensures IsLetters(r)
  {
    match s
    case Setup => LettersOf("setup"); "setup"
    case KeyGen => LettersOf("keyGen"); "keyGen"
    case Sign => LettersOf("sign"); "sign"
    case Verify => LettersOf("verify"); "verify"
  }

  /** No two stages share a name. */
  lemma StageNameInjective(s: Stage, t: Stage)
    ensures StageName(s) == StageName(t) ==> s == t
  {
    StageNamesDistinct();
  }

  /** The two modes print differently, so the exported command names of the two modes differ. */
  lemma ModeNamesDistinct()
    ensures ModeName(Time) != ModeName(Counting)
  {
    assert |ModeName(Time)| != |ModeName(Counting)|;
  }

  lemma StageNamesDistinct()
    ensures "setup" != "keyGen" && "setup" != "sign" && "setup" != "verify"
    ensures "keyGen" != "sign" && "keyGen" != "verify" && "sign" != "verify"
  {
    assert "setup"[0] != "keyGen"[0] && "setup"[0] != "sign"[1] && "setup"[0] != "verify"[0];
    assert "keyGen"[0] != "sign"[0] && "keyGen"[0] != "verify"[0] && "sign"[0] != "verify"[0];
  }

  // ---------------------------------------------------------------------
  // Measured times and their specification
  // ---------------------------------------------------------------------

  /** BenchmarkTimes: durations are whole clock ticks, the average is exact. */
  datatype Times = Times(min: nat, max: nat, sum: nat, avg: real)

  function Sum(ds: seq<nat>): nat {
    if ds == [] then 0 else Sum(ds[..|ds| - 1]) + ds[|ds| - 1]
  }

  /** The least duration. */
  function Min(ds: seq<nat>): (m: nat)
    requires |ds| > 0
    ensures m in ds
    ensures forall k :: 0 <= k < |ds| ==> m <= ds[k]
  {
    if |ds| == 1 then ds[0]
    else
      var m := Min(ds[..|ds| - 1]);
      if ds[|ds| - 1] < m then ds[|ds| - 1] else m
  }

  /** The greatest duration. */
  function Max(ds: seq<nat>): (m: nat)
    requires |ds| > 0
    ensures m in ds
    ensures forall k :: 0 <= k < |ds| ==> ds[k] <= m
  {
    if |ds| == 1 then ds[0]
    else
      var m := Max(ds[..|ds| - 1]);
      if ds[|ds| - 1] > m then ds[|ds| - 1] else m
  }

  /** The aggregate a measured phase reports for its durations. */
  function Aggregate(ds: seq<nat>): Times
    requires |ds| > 0
  {
    Times(Min(ds), Max(ds), Sum(ds), Sum(ds) as real / |ds| as real)
  }

  /** The total is at least |ds| times any lower bound of the durations. */
  lemma {:induction false} SumAtLeast(ds: seq<nat>, lo: real)
    requires forall k :: 0 <= k < |ds| ==> lo <= ds[k] as real
    ensures |ds| as real * lo <= Sum(ds) as real
  {
    if ds != [] {
      var init := ds[..|ds| - 1];
      SumAtLeast(init, lo);
      assert |ds| as real * lo == |init| as real * lo + lo;
    }
  }

  /** The total is at most |ds| times any upper bound of the durations. */
  lemma {:induction false} SumAtMost(ds: seq<nat>, hi: real)
    requires forall k :: 0 <= k < |ds| ==> ds[k] as real <= hi
    ensures Sum(ds) as real <= |ds| as real * hi
  {
    if ds != [] {
      var init := ds[..|ds| - 1];
      SumAtMost(init, hi);
      assert |ds| as real * hi == |init| as real * hi + hi;
    }
  }

  /**
   * The running totals (sum, min, max) of measureStepTimes after the first i
   * durations, updated as the loop does: the first duration sets both
   * extremes, each later one replaces an extreme it beats.
   */
  function Fold(ds: seq<nat>, i: nat): (nat, nat, nat)
    requires i <= |ds|
  {
    if i == 0 then (0, 0, 0)
    else
      var (sum, lo, hi) := Fold(ds, i - 1);
      var d := ds[i - 1];
      (sum + d, if i - 1 == 0 || d < lo then d else lo, if i - 1 == 0 || d > hi then d else hi)
  }

  /** The running totals are the sum, least and greatest of the durations folded in so far. */
  lemma {:induction false} FoldIsAggregate(ds: seq<nat>, i: nat)
    requires 0 < i <= |ds|
    ensures Fold(ds, i) == (Sum(ds[..i]), Min(ds[..i]), Max(ds[..i]))
  {
    var pre := ds[..i];
    assert pre[..i - 1] == ds[..i - 1];
    if i > 1 {
      FoldIsAggregate(ds, i - 1);
    } else {
      assert Sum(ds[..0]) == 0;
    }
  }

  /** Once every duration is folded in, the totals are the aggregate. */
  lemma FoldAll(ds: seq<nat>)
    requires |ds| > 0
    ensures var (sum, lo, hi) := Fold(ds, |ds|);
      Times(lo, hi, sum, sum as real / |ds| as real) == Aggregate(ds)
  {
    FoldIsAggregate(ds, |ds|);
    assert ds[..|ds|] == ds;
  }

  /** min <= avg <= max. */
  lemma AggregateBounds(ds: seq<nat>)
    requires |ds| > 0
    ensures Aggregate(ds).min as real <= Aggregate(ds).avg <= Aggregate(ds).max as real
  {
    AverageBetween(ds, Min(ds), Max(ds), Sum(ds));
  }

  lemma AverageBetween(ds: seq<nat>, lo: nat, hi: nat, total: nat)
    requires |ds| > 0
    requires forall k :: 0 <= k < |ds| ==> lo <= ds[k] <= hi
    requires total == Sum(ds)
    ensures lo as real <= total as real / |ds| as real <= hi as real
  {
    SumAtLeast(ds, lo as real);
    SumAtMost(ds, hi as real);
    DivideBetween(lo as real, total as real, hi as real, |ds| as real);
  }

  /** The average times the number of measured calls gives back the total. */
  lemma AggregateAverage(ds: seq<nat>)
    requires |ds| > 0
    ensures Aggregate(ds).avg * |ds| as real == Aggregate(ds).sum as real
  {
    var t := Aggregate(ds);
    DivideBack(t.sum as real, |ds| as real);
  }

  lemma DivideBetween(lo: real, s: real, hi: real, n: real)
    requires n > 0.0
    requires n * lo <= s <= n * hi
    ensures lo <= s / n <= hi
  {
  }

  lemma DivideBack(s: real, n: real)
    requires n > 0.0
    ensures s / n * n == s
  {
  }

  /**
   * As written, `maxTime` starts at Double.MIN_VALUE, the least POSITIVE
   * double, so a phase whose every duration is 0 reports a positive maximum.
   */
  const DoubleMinValue: real := 4.9e-324

  function MaxAsWritten(ds: seq<nat>): real {
    if ds == [] then DoubleMinValue
    else
      var m := MaxAsWritten(ds[..|ds| - 1]);
      if ds[|ds| - 1] as real > m then ds[|ds| - 1] as real else m
  }

  /** As written, the maximum is the greatest duration unless every duration is 0, when it is Double.MIN_VALUE. */
  lemma {:induction false} MaxAsWrittenIs(ds: seq<nat>)
    requires |ds| > 0
    ensures MaxAsWritten(ds) == if Max(ds) > 0 then Max(ds) as real else DoubleMinValue
  {
    var init := ds[..|ds| - 1];
    if |ds| == 1 {
      assert init == [];
    } else {
      MaxAsWrittenIs(init);
    }
  }

  /** So a stage whose one duration is 0 reports a positive maximum. */
  lemma MaxAsWrittenOfZeros()
    ensures MaxAsWritten([0]) == DoubleMinValue
    ensures MaxAsWritten([0]) != 0.0
  {
    MaxAsWrittenIs([0]);
  }

  // ---------------------------------------------------------------------
  // The driver
  // ---------------------------------------------------------------------

  datatype KeyPair<SigningKey, VerificationKey> = KeyPair(signingKey: SigningKey, verificationKey: VerificationKey)

  /** The scheme operations the driver calls; their implementation is not part of this model. */
  datatype SchemeOps<!Scheme, !SigningKey, !VerificationKey, !Signature, !Message> = SchemeOps(
    generateKeyPair: (Scheme, int) -> KeyPair<SigningKey, VerificationKey>,
    sign: (Scheme, SigningKey, Message) -> Signature,
    verify: (Scheme, Message, Signature, VerificationKey) -> bool)

  /** One call of a stage's step with its iteration number. */
  datatype Call = Call(stage: Stage, index: int)

  function NonNegative(n: int): nat {
    if n < 0 then 0 else n
  }

  /** The calls of one loop `for (i = 0; i < n; i++) step(i)`. */
  function StageCalls(s: Stage, n: int): (r: seq<Call>)
    ensures |r| == NonNegative(n)
    ensures forall k :: 0 <= k < |r| ==> r[k] == Call(s, k)
  {
    seq(NonNegative(n), k => Call(s, k))
  }

  /** One more call of the loop extends a trace that ends in the loop's calls so far. */
  lemma StageCallsSnoc(t: seq<Call>, s: Stage, i: nat)
    ensures t + StageCalls(s, i) + [Call(s, i)] == t + StageCalls(s, i + 1)
  {
    assert StageCalls(s, i) + [Call(s, i)] == StageCalls(s, i + 1);
  }

  /** One stage: its pre-warm calls, then its measured calls. */
  function StagePlan(s: Stage, prewarm: int, run: int): seq<Call> {
    StageCalls(s, prewarm) + StageCalls(s, run)
  }

  /** All calls of runTimedBenchmarks: the four stages in order. */
  function BenchmarkPlan(prewarm: int, run: int): seq<Call> {
    StagePlan(Setup, prewarm, run) + StagePlan(KeyGen, prewarm, run) +
    StagePlan(Sign, prewarm, run) + StagePlan(Verify, prewarm, run)
  }

  /** Which quarter of the plan position k falls in, for stages of n calls each. */
  function Quarter(k: int, n: int): nat {
    if k < n then 0 else if k < 2 * n then 1 else if k < 3 * n then 2 else 3
  }

  lemma {:induction false} PlanAt(prewarm: int, run: int, k: int)
    requires 0 <= k < |BenchmarkPlan(prewarm, run)|
    ensures StageIndex(BenchmarkPlan(prewarm, run)[k].stage) == Quarter(k, NonNegative(prewarm) + NonNegative(run))
  {
    var n := NonNegative(prewarm) + NonNegative(run);
    var a, b, c, d := StagePlan(Setup, prewarm, run), StagePlan(KeyGen, prewarm, run),
                      StagePlan(Sign, prewarm, run), StagePlan(Verify, prewarm, run);
    assert |a| == n && |b| == n && |c| == n && |d| == n;
    var plan := BenchmarkPlan(prewarm, run);
    assert plan == ((a + b) + c) + d;
    if k < n {
      assert plan[k] == a[k];
    } else if k < 2 * n {
      assert plan[k] == b[k - n];
    } else if k < 3 * n {
      assert plan[k] == c[k - 2 * n];
    } else {
      assert plan[k] == d[k - 3 * n];
    }
  }

  /** Every call of a stage comes after every call of an earlier stage. */
  lemma PlanStagesInOrder(prewarm: int, run: int, i: int, j: int)
    requires 0 <= i < j < |BenchmarkPlan(prewarm, run)|
    ensures StageIndex(BenchmarkPlan(prewarm, run)[i].stage) <= StageIndex(BenchmarkPlan(prewarm, run)[j].stage)
  {
    PlanAt(prewarm, run, i);
    PlanAt(prewarm, run, j);
  }

  /** The measured calls of a stage have the indices 0 .. run-1, in increasing order. */
  lemma MeasuredCallsInOrder(s: Stage, prewarm: int, run: int, k: int)
    requires 0 <= k < NonNegative(run)
    ensures StagePlan(s, prewarm, run)[NonNegative(prewarm) + k] == Call(s, k)
  {
  }

  /** Every slot holds a value. */
  predicate Filled<T>(slots: seq<Option<T>>) {
    forall k :: 0 <= k < |slots| ==> slots[k].Some?
  }

  /** The slots a stage's step reads are filled: sign reads key pairs, verify reads both. */
  predicate ReadyFor<KP, Sig>(s: Stage, kps: seq<Option<KP>>, sigs: seq<Option<Sig>>) {
    match s
    case Setup => true
    case KeyGen => true
    case Sign => Filled(kps)
    case Verify => Filled(kps) && Filled(sigs)
  }

  /**
   * One call of a stage's step at index i, from slots (kps0, sigs0) to
   * (kps, sigs): keyGen writes key pair slot i, sign writes signature
   * slot i from key pair slot i and message i, setup and verify write none.
   */
  ghost predicate Stepped<KP, Sig, Msg>(
    s: Stage, i: int, newKeyPair: KP, signSlot: (Option<KP>, Msg) -> Option<Sig>, messages: seq<Msg>,
    kps0: seq<Option<KP>>, sigs0: seq<Option<Sig>>, kps: seq<Option<KP>>, sigs: seq<Option<Sig>>)
  {
    0 <= i < |kps0| == |sigs0| <= |messages| &&
    kps == (if s == KeyGen then kps0[i := Some(newKeyPair)] else kps0) &&
    sigs == (if s == Sign then sigs0[i := signSlot(kps0[i], messages[i])] else sigs0)
  }

  /**
   * The slots after a stage's step ran for indices 0 .. j-1 on slots
   * (kps0, sigs0): keyGen has filled key pair slots below j, sign has
   * filled signature slots below j from the key pair in the same slot,
   * every other slot is as it was.
   */
  ghost predicate Applied<KP, Sig, Msg>(
    s: Stage, j: int, newKeyPair: KP, signSlot: (Option<KP>, Msg) -> Option<Sig>, messages: seq<Msg>,
    kps0: seq<Option<KP>>, sigs0: seq<Option<Sig>>, kps: seq<Option<KP>>, sigs: seq<Option<Sig>>)
  {
    |kps0| == |sigs0| == |kps| == |sigs| <= |messages| &&
    (forall k :: 0 <= k < |kps| ==>
       kps[k] == (if s == KeyGen && k < j then Some(newKeyPair) else kps0[k])) &&
    (forall k :: 0 <= k < |sigs| ==>
       sigs[k] == (if s == Sign && k < j then signSlot(kps0[k], messages[k]) else sigs0[k]))
  }

  lemma AppliedNone<KP, Sig, Msg>(
    s: Stage, newKeyPair: KP, signSlot: (Option<KP>, Msg) -> Option<Sig>, messages: seq<Msg>,
    kps: seq<Option<KP>>, sigs: seq<Option<Sig>>)
    requires |kps| == |sigs| <= |messages|
    ensures Applied(s, 0, newKeyPair, signSlot, messages, kps, sigs, kps, sigs)
  {
  }

  /** Running the step at index j after indices 0 .. j-1 gives the slots for indices 0 .. j. */
  lemma AppliedStep<KP, Sig, Msg>(
    s: Stage, j: int, newKeyPair: KP, signSlot: (Option<KP>, Msg) -> Option<Sig>, messages: seq<Msg>,
    kps0: seq<Option<KP>>, sigs0: seq<Option<Sig>>,
    kps1: seq<Option<KP>>, sigs1: seq<Option<Sig>>,
    kps2: seq<Option<KP>>, sigs2: seq<Option<Sig>>)
    requires 0 <= j
    requires Applied(s, j, newKeyPair, signSlot, messages, kps0, sigs0, kps1, sigs1)
    requires Stepped(s, j, newKeyPair, signSlot, messages, kps1, sigs1, kps2, sigs2)
    ensures Applied(s, j + 1, newKeyPair, signSlot, messages, kps0, sigs0, kps2, sigs2)
  {
    assert kps1[j] == kps0[j] || s == KeyGen;
  }

  /** A step never empties a slot that the stage's own step reads. */
  lemma SteppedKeepsReady<KP, Sig, Msg>(
    s: Stage, i: int, newKeyPair: KP, signSlot: (Option<KP>, Msg) -> Option<Sig>, messages: seq<Msg>,
    kps0: seq<Option<KP>>, sigs0: seq<Option<Sig>>, kps: seq<Option<KP>>, sigs: seq<Option<Sig>>)
    requires ReadyFor(s, kps0, sigs0)
    requires Stepped(s, i, newKeyPair, signSlot, messages, kps0, sigs0, kps, sigs)
    ensures ReadyFor(s, kps, sigs)
  {
  }

  /** Pre-warming never shows in the slots: the measured phase rewrites every slot it wrote. */
  lemma PrewarmSubsumed<KP, Sig, Msg>(
    s: Stage, prewarm: int, run: int, newKeyPair: KP,
    signSlot: (Option<KP>, Msg) -> Option<Sig>, messages: seq<Msg>,
    kps0: seq<Option<KP>>, sigs0: seq<Option<Sig>>,
    kps1: seq<Option<KP>>, sigs1: seq<Option<Sig>>,
    kps2: seq<Option<KP>>, sigs2: seq<Option<Sig>>)
    requires prewarm <= run
    requires Applied(s, prewarm, newKeyPair, signSlot, messages, kps0, sigs0, kps1, sigs1)
    requires Applied(s, run, newKeyPair, signSlot, messages, kps1, sigs1, kps2, sigs2)
    ensures Applied(s, run, newKeyPair, signSlot, messages, kps0, sigs0, kps2, sigs2)
  {
    forall k | 0 <= k < |sigs2|
      ensures sigs2[k] == (if s == Sign && k < run then signSlot(kps0[k], messages[k]) else sigs0[k])
    {
      if s == Sign {
        assert kps1[k] == kps0[k];
      }
    }
  }

  /** A completed keyGen stage has filled every key pair slot and left the signatures alone. */
  lemma KeyGenStageFills<KP, Sig, Msg>(
    run: int, newKeyPair: KP, signSlot: (Option<KP>, Msg) -> Option<Sig>, messages: seq<Msg>,
    kps0: seq<Option<KP>>, sigs0: seq<Option<Sig>>, kps: seq<Option<KP>>, sigs: seq<Option<Sig>>)
    requires Applied(KeyGen, run, newKeyPair, signSlot, messages, kps0, sigs0, kps, sigs)
    requires |kps| == run
    ensures kps == seq(run, _ => Some(newKeyPair))
    ensures sigs == sigs0
  {
  }

  /** A completed sign stage has signed every message with the key pair in its slot and left the key pairs alone. */
  lemma SignStageFills<KP, Sig, Msg>(
    run: int, newKeyPair: KP, signSlot: (Option<KP>, Msg) -> Option<Sig>, messages: seq<Msg>,
    kps0: seq<Option<KP>>, sigs0: seq<Option<Sig>>, kps: seq<Option<KP>>, sigs: seq<Option<Sig>>)
    requires Applied(Sign, run, newKeyPair, signSlot, messages, kps0, sigs0, kps, sigs)
    requires |kps| == run
    ensures kps == kps0
    ensures sigs == seq(run, k requires 0 <= k < run => signSlot(kps0[k], messages[k]))
  {
  }

  /** The setup and verify stages write no slot. */
  lemma QuietStage<KP, Sig, Msg>(
    s: Stage, run: int, newKeyPair: KP, signSlot: (Option<KP>, Msg) -> Option<Sig>, messages: seq<Msg>,
    kps0: seq<Option<KP>>, sigs0: seq<Option<Sig>>, kps: seq<Option<KP>>, sigs: seq<Option<Sig>>)
    requires s == Setup || s == Verify
    requires Applied(s, run, newKeyPair, signSlot, messages, kps0, sigs0, kps, sigs)
    ensures kps == kps0 && sigs == sigs0
  {
  }

  lemma ConcatAssoc4<T>(t: seq<T>, a: seq<T>, b: seq<T>, c: seq<T>, d: seq<T>)
    ensures t + a + b + c + d == t + (a + b + c + d)
  {
  }

  class Benchmark<Group, CountingGroup, Scheme, SK, VK, Sig, Msg> {
    const config: BenchmarkConfig.Config<Group, CountingGroup>
    const messages: seq<Msg>
    const schemeSetupFunction: (Group, int) -> Scheme
    const ops: SchemeOps<Scheme, SK, VK, Sig, Msg>
    const schemeBlueprint: Scheme
    const bmKeyPairs: array<Option<KeyPair<SK, VK>>>
    const bmSignatures: array<Option<Sig>>

    /** The times each stage measured, in stage order. */
    var timeResults: seq<Times>

    /** Every step call made so far, in order. */
    ghost var trace: seq<Call>

    /**
     * The object invariant: slots for runIterations iterations, at least as
     * many messages, a config as its constructor guarantees it, and at least
     * one measured iteration (the average divides by runIterations).
     */
    ghost predicate Valid() {
      BenchmarkConfig.Valid(config) && config.runIterations >= 1 &&
      bmKeyPairs.Length == config.runIterations && bmSignatures.Length == config.runIterations &&
      |messages| >= config.runIterations &&
      bmKeyPairs as object != bmSignatures as object &&
      schemeBlueprint == schemeSetupFunction(config.timerBGroup, config.messageLength)
    }

    /** What each key generation yields. */
    ghost function NewKeyPair(): KeyPair<SK, VK> {
      ops.generateKeyPair(schemeBlueprint, config.messageLength)
    }

    /** What signing a message with the key pair in a slot yields. */
    ghost function SignSlot(kp: Option<KeyPair<SK, VK>>, m: Msg): Option<Sig> {
      match kp
      case Some(p) => Some(ops.sign(schemeBlueprint, p.signingKey, m))
      case None => None
    }

    ghost predicate Ready(s: Stage)
      reads bmKeyPairs, bmSignatures
    {
      ReadyFor(s, bmKeyPairs[..], bmSignatures[..])
    }

    /** The slots now are those after stage s ran its step for indices 0 .. j-1 on (kps0, sigs0). */
    ghost predicate AppliedSince(s: Stage, j: int, kps0: seq<Option<KeyPair<SK, VK>>>, sigs0: seq<Option<Sig>>)
      reads bmKeyPairs, bmSignatures
    {
      Applied(s, j, NewKeyPair(), SignSlot, messages, kps0, sigs0, bmKeyPairs[..], bmSignatures[..])
    }

    constructor (config: BenchmarkConfig.Config<Group, CountingGroup>, messages: seq<Msg>,
                 schemeSetupFunction: (Group, int) -> Scheme, ops: SchemeOps<Scheme, SK, VK, Sig, Msg>,
                 clock: seq<seq<nat>>)
      requires BenchmarkConfig.Valid(config) && config.runIterations >= 1
      requires |messages| >= config.runIterations
      requires |clock| == |Stages| && forall k :: 0 <= k < |clock| ==> |clock[k]| == config.runIterations
      ensures Valid()
      ensures this.config == config && this.messages == messages && this.ops == ops
      ensures this.schemeSetupFunction == schemeSetupFunction
      ensures trace == BenchmarkPlan(config.prewarmIterations, config.runIterations)
      ensures |timeResults| == |Stages| && forall k :: 0 <= k < |Stages| ==> timeResults[k] == Aggregate(clock[k])
      ensures forall k :: 0 <= k < config.runIterations ==>
        bmKeyPairs[k] == Some(NewKeyPair()) &&
        bmSignatures[k] == Some(ops.sign(schemeBlueprint, NewKeyPair().signingKey, messages[k]))
    {
      this.config := config;
      this.messages := messages;
      this.schemeSetupFunction := schemeSetupFunction;
      this.ops := ops;
      this.schemeBlueprint := schemeSetupFunction(config.timerBGroup, config.messageLength);
      this.bmKeyPairs := new Option<KeyPair<SK, VK>>[config.runIterations](_ => None);
      this.bmSignatures := new Option<Sig>[config.runIterations](_ => None);
      this.trace := [];
      this.timeResults := [];
      new;
      var results := RunTimedBenchmarks(clock);
      timeResults := results;
    }

    /** getBenchmarkTimeResult: the times measured by the stage run under the given name, if there is one. */
    function BenchmarkTimeResult(name: string): (t: Option<Times>)
      reads this
      requires |timeResults| == |Stages|
      ensures (forall s :: StageName(s) != name) ==> t == None
      ensures forall s :: StageName(s) == name ==> t == Some(timeResults[StageIndex(s)])
    {
      StageNamesDistinct();
      if name == "setup" then assert StageName(Setup) == name; Some(timeResults[0])
      else if name == "keyGen" then assert StageName(KeyGen) == name; Some(timeResults[1])
      else if name == "sign" then assert StageName(Sign) == name; Some(timeResults[2])
      else if name == "verify" then assert StageName(Verify) == name; Some(timeResults[3])
      else None
    }

    /** runTimedBenchmarks: the four stages in order, each fully pre-warmed, then measured. */
    method RunTimedBenchmarks(clock: seq<seq<nat>>) returns (results: seq<Times>)
      requires Valid()
      requires |clock| == |Stages| && forall k :: 0 <= k < |clock| ==> |clock[k]| == config.runIterations
      modifies this`trace, bmKeyPairs, bmSignatures
      ensures trace == old(trace) + BenchmarkPlan(config.prewarmIterations, config.runIterations)
      ensures |results| == |Stages| && forall k :: 0 <= k < |Stages| ==> results[k] == Aggregate(clock[k])
      ensures forall k :: 0 <= k < config.runIterations ==>
        bmKeyPairs[k] == Some(NewKeyPair()) &&
        bmSignatures[k] == Some(ops.sign(schemeBlueprint, NewKeyPair().signingKey, messages[k]))
    {
      var p, r := config.prewarmIterations, config.runIterations;
      ghost var trace0 := trace;
      ghost var kps0, sigs0 := bmKeyPairs[..], bmSignatures[..];
      var setup := RunTimeBenchmark(Setup, clock[0]);
      ghost var kps1, sigs1 := bmKeyPairs[..], bmSignatures[..];
      QuietStage(Setup, r, NewKeyPair(), SignSlot, messages, kps0, sigs0, kps1, sigs1);
      var keyGen := RunTimeBenchmark(KeyGen, clock[1]);
      ghost var kps2, sigs2 := bmKeyPairs[..], bmSignatures[..];
      KeyGenStageFills(r, NewKeyPair(), SignSlot, messages, kps1, sigs1, kps2, sigs2);
      var sign := RunTimeBenchmark(Sign, clock[2]);
      ghost var kps3, sigs3 := bmKeyPairs[..], bmSignatures[..];
      SignStageFills(r, NewKeyPair(), SignSlot, messages, kps2, sigs2, kps3, sigs3);
      var verify := RunTimeBenchmark(Verify, clock[3]);
      QuietStage(Verify, r, NewKeyPair(), SignSlot, messages, kps3, sigs3, bmKeyPairs[..], bmSignatures[..]);
      results := [setup, keyGen, sign, verify];
      ConcatAssoc4(trace0, StagePlan(Setup, p, r), StagePlan(KeyGen, p, r), StagePlan(Sign, p, r), StagePlan(Verify, p, r));
      forall k | 0 <= k < r
        ensures bmKeyPairs[k] == Some(NewKeyPair())
        ensures bmSignatures[k] == Some(ops.sign(schemeBlueprint, NewKeyPair().signingKey, messages[k]))
      {
        assert bmKeyPairs[k] == kps2[k];
        assert bmSignatures[k] == sigs3[k] == SignSlot(kps2[k], messages[k]);
      }
    }

    /**
     * The two-argument runTimeBenchmark: the pre-warm run, then the
     * measured run, of the same stage.
     */
    method RunTimeBenchmark(s: Stage, durations: seq<nat>) returns (times: Times)
      requires Valid() && Ready(s)
      requires |durations| == config.runIterations
      modifies this`trace, bmKeyPairs, bmSignatures
      ensures Ready(s)
      ensures times == Aggregate(durations)
      ensures trace == old(trace) + StagePlan(s, config.prewarmIterations, config.runIterations)
      ensures AppliedSince(s, config.runIterations, old(bmKeyPairs[..]), old(bmSignatures[..]))
    {
      ghost var kps0, sigs0 := bmKeyPairs[..], bmSignatures[..];
      var none := RunTimeBenchmarkPhase(s, true, durations);
      ghost var kps1, sigs1 := bmKeyPairs[..], bmSignatures[..];
      var measured := RunTimeBenchmarkPhase(s, false, durations);
      times := measured.value;
      PrewarmSubsumed(s, config.prewarmIterations, config.runIterations, NewKeyPair(), SignSlot, messages,
                      kps0, sigs0, kps1, sigs1, bmKeyPairs[..], bmSignatures[..]);
    }

    /**
     * The three-argument runTimeBenchmark: with isPrewarm, the step runs
     * for indices 0 .. prewarm-1 and nothing is measured; otherwise the
     * step is measured over indices 0 .. run-1.
     */
    method RunTimeBenchmarkPhase(s: Stage, isPrewarm: bool, durations: seq<nat>) returns (times: Option<Times>)
      requires Valid() && Ready(s)
      requires |durations| == config.runIterations
      modifies this`trace, bmKeyPairs, bmSignatures
      ensures Ready(s)
      ensures times == if isPrewarm then None else Some(Aggregate(durations))
      ensures var n := if isPrewarm then config.prewarmIterations else config.runIterations;
        trace == old(trace) + StageCalls(s, n) &&
        AppliedSince(s, n, old(bmKeyPairs[..]), old(bmSignatures[..]))
    {
      if isPrewarm {
        ghost var trace0, kps0, sigs0 := trace, bmKeyPairs[..], bmSignatures[..];
        AppliedNone(s, NewKeyPair(), SignSlot, messages, kps0, sigs0);
        var i := 0;
        while i < config.prewarmIterations
          invariant 0 <= i <= NonNegative(config.prewarmIterations)
          invariant Ready(s)
          invariant trace == trace0 + StageCalls(s, i)
          invariant AppliedSince(s, i, kps0, sigs0)
        {
          RunStep(s, i, trace0, kps0, sigs0);
          i := i + 1;
        }
        times := None;
      } else {
        var t := MeasureStepTimes(s, durations);
        times := Some(t);
      }
    }

    /** measureStepTimes: runs the step for indices 0 .. run-1, timing each call. */
    method MeasureStepTimes(s: Stage, durations: seq<nat>) returns (times: Times)
      requires Valid() && Ready(s)
      requires |durations| == config.runIterations
      modifies this`trace, bmKeyPairs, bmSignatures
      ensures Ready(s)
      ensures times == Aggregate(durations)
      ensures trace == old(trace) + StageCalls(s, config.runIterations)
      ensures AppliedSince(s, config.runIterations, old(bmKeyPairs[..]), old(bmSignatures[..]))
    {
      ghost var trace0, kps0, sigs0 := trace, bmKeyPairs[..], bmSignatures[..];
      AppliedNone(s, NewKeyPair(), SignSlot, messages, kps0, sigs0);
      var sumTime, minTime, maxTime := 0, 0, 0;
      var i := 0;
      while i < config.runIterations
        invariant 0 <= i <= config.runIterations
        invariant (sumTime, minTime, maxTime) == Fold(durations, i)
        invariant Ready(s)
        invariant trace == trace0 + StageCalls(s, i)
        invariant AppliedSince(s, i, kps0, sigs0)
      {
        ghost var next := Fold(durations, i + 1);
        RunStep(s, i, trace0, kps0, sigs0);
        var delta := durations[i];
        if i == 0 || delta < minTime {
          minTime := delta;
        }
        if i == 0 || delta > maxTime {
          maxTime := delta;
        }
        sumTime := sumTime + delta;
        assert (sumTime, minTime, maxTime) == next;
        i := i + 1;
      }
      FoldAll(durations);
      times := Times(minTime, maxTime, sumTime, sumTime as real / config.runIterations as real);
    }

    /**
     * The step a stage runs for one iteration number (the IntConsumer passed
     * to runTimeBenchmark). The ghost trace and slots (trace0, kps0, sigs0)
     * are where the current loop started: after steps 0 .. i-1 the step at i
     * extends the loop's calls and effect to 0 .. i.
     */
    method RunStep(s: Stage, i: int, ghost trace0: seq<Call>,
                   ghost kps0: seq<Option<KeyPair<SK, VK>>>, ghost sigs0: seq<Option<Sig>>)
      requires Valid() && Ready(s) && 0 <= i < config.runIterations
      requires trace == trace0 + StageCalls(s, i)
      requires AppliedSince(s, i, kps0, sigs0)
      modifies this`trace, bmKeyPairs, bmSignatures
      ensures Ready(s)
      ensures trace == old(trace) + [Call(s, i)] && trace == trace0 + StageCalls(s, i + 1)
      ensures Stepped(s, i, NewKeyPair(), SignSlot, messages,
                      old(bmKeyPairs[..]), old(bmSignatures[..]), bmKeyPairs[..], bmSignatures[..])
      ensures AppliedSince(s, i + 1, kps0, sigs0)
    {
      ghost var kps, sigs := bmKeyPairs[..], bmSignatures[..];
      match s {
        case Setup => RunSetup(i);
        case KeyGen => RunKeyGen(i);
        case Sign => RunSign(i);
        case Verify => var accepted := RunVerify(i);
      }
      SteppedKeepsReady(s, i, NewKeyPair(), SignSlot, messages, kps, sigs, bmKeyPairs[..], bmSignatures[..]);
      AppliedStep(s, i, NewKeyPair(), SignSlot, messages, kps0, sigs0, kps, sigs, bmKeyPairs[..], bmSignatures[..]);
      StageCallsSnoc(trace0, s, i);
    }

    /** runSetup: builds a throwaway scheme instance; no slot and no field changes. */
    method RunSetup(i: int)
      requires Valid()
      modifies this`trace
      ensures trace == old(trace) + [Call(Setup, i)]
    {
      var tempSchemeInstance := schemeSetupFunction(config.timerBGroup, config.messageLength);
      trace := trace + [Call(Setup, i)];
    }

    /** runKeyGen: stores a fresh key pair in slot i and touches no other slot. */
    method RunKeyGen(i: int)
      requires Valid() && 0 <= i < bmKeyPairs.Length
      modifies this`trace, bmKeyPairs
      ensures trace == old(trace) + [Call(KeyGen, i)]
      ensures bmKeyPairs[..] == old(bmKeyPairs[..])[i := Some(NewKeyPair())]
    {
      var keyPair := ops.generateKeyPair(schemeBlueprint, config.messageLength);
      bmKeyPairs[i] := Some(keyPair);
      trace := trace + [Call(KeyGen, i)];
    }

    /** runSign: signs message i with the key pair in slot i and stores the signature in slot i only. */
    method RunSign(i: int)
      requires Valid() && 0 <= i < bmSignatures.Length
      requires bmKeyPairs[i].Some?
      modifies this`trace, bmSignatures
      ensures trace == old(trace) + [Call(Sign, i)]
      ensures bmSignatures[..] ==
        old(bmSignatures[..])[i := Some(ops.sign(schemeBlueprint, bmKeyPairs[i].value.signingKey, messages[i]))]
    {
      var sigma := ops.sign(schemeBlueprint, bmKeyPairs[i].value.signingKey, messages[i]);
      bmSignatures[i] := Some(sigma);
      trace := trace + [Call(Sign, i)];
    }

    /** runVerify: verifies message i against the signature and key pair of slot i; writes no slot. */
    method RunVerify(i: int) returns (accepted: bool)
      requires Valid() && 0 <= i < bmSignatures.Length
      requires bmKeyPairs[i].Some? && bmSignatures[i].Some?
      modifies this`trace
      ensures trace == old(trace) + [Call(Verify, i)]
      ensures accepted == ops.verify(schemeBlueprint, messages[i], bmSignatures[i].value,
                                     bmKeyPairs[i].value.verificationKey)
    {
      accepted := ops.verify(schemeBlueprint, messages[i], bmSignatures[i].value,
                             bmKeyPairs[i].value.verificationKey);
      trace := trace + [Call(Verify, i)];
    }
  }
}
