/** The fault-injection registry of fault.go, as values: the settings and
    counters of one checkpoint configuration (`errCfg`), the name-to-config
    map (`errCfgMap`), and what one query (`ErrPoint`) or one registration
    (`ErrCfg`) does to them. The classes in module `Fault` are proved against
    these functions.

    The random source is not modelled: each query is given the sample that
    `dice.Int63()` would return, a value in [0, MaxInt64]. */
module FaultSpec {
  import opened Errors

  const MaxInt64: int := 0x7fff_ffff_ffff_ffff
  const MinInt64: int := -0x8000_0000_0000_0000

  /** A value `rand.Source.Int63` can return. */
  predicate IsSample(s: int)
  {
    0 <= s <= MaxInt64
  }

  /** An error factory (`errFactory`, fault.go:15): builds the error for a
      checkpoint name. Like any Go function returning `error`, it may return
      nil (`None`). */
  type Factory = string -> Option<Error>

  /** `defaultErrFactory` (fault.go:19-21): wraps `ErrFault` and appends the
      checkpoint name to its text; never nil. */
  function DefaultFactory(name: string): (e: Option<Error>)
    ensures e.Some? && e.value.IsFault()
    ensures e.value.Text() == "fault: " + name
  {
    Some(Fault(name))
  }

  /** Which random source a configuration draws from: the shared `errDice`,
      or one installed by an option. Only its identity is modelled. */
  datatype Dice = SharedDice | OwnDice(id: nat)

  /** The settings of an `errCfg`: everything but its counters. */
  datatype Settings = Settings(probability: int, factory: Factory, dice: Dice)

  /** The settings `defaultCfg` gives (fault.go:91-97). */
  function DefaultSettings(): Settings
  {
    Settings(MaxInt64, DefaultFactory, SharedDice)
  }

  /** An option (`ErrOpt`, fault.go:70), a closure that assigns one field of
      the config being built. `Prob(threshold)` is the closure `Prob` returns
      (fault.go:76-78), the only option the package defines. `errCfg` is
      unexported, so no code outside the package can write an `ErrOpt`;
      `WithFactory` and `WithDice` are hypothetical options of the package
      itself that would install a custom factory or random source. */
  datatype Opt = Prob(threshold: int) | WithFactory(factory: Factory) | WithDice(dice: Dice)

  /** The effect of one option: it assigns its own field and no other. */
  function Apply(s: Settings, o: Opt): (r: Settings)
    ensures o.Prob? ==> r == s.(probability := o.threshold)
    ensures o.WithFactory? ==> r == s.(factory := o.factory)
    ensures o.WithDice? ==> r == s.(dice := o.dice)
  {
    match o
    case Prob(t) => s.(probability := t)
    case WithFactory(f) => s.(factory := f)
    case WithDice(d) => s.(dice := d)
  }

  /** The options applied in order, first to last (fault.go:83-85). */
  function ApplyAll(s: Settings, opts: seq<Opt>): Settings
    decreases |opts|
  {
    if opts == [] then s else Apply(ApplyAll(s, opts[..|opts| - 1]), opts[|opts| - 1])
  }

  /** Without a `Prob` option the threshold stays as it was. */
  lemma {:induction false} NoProbKeepsThreshold(s: Settings, opts: seq<Opt>)
    requires forall i :: 0 <= i < |opts| ==> !opts[i].Prob?
    ensures ApplyAll(s, opts).probability == s.probability
    decreases |opts|
  {
    if opts != [] {
      NoProbKeepsThreshold(s, opts[..|opts| - 1]);
    }
  }

  /** Later options win: the threshold is the one of the last `Prob` option. */
  lemma {:induction false} LastProbWins(s: Settings, opts: seq<Opt>, i: nat)
    requires i < |opts| && opts[i].Prob?
    requires forall j :: i < j < |opts| ==> !opts[j].Prob?
    ensures ApplyAll(s, opts).probability == opts[i].threshold
    decreases |opts|
  {
    var n := |opts| - 1;
    if i < n {
      var init := opts[..n];
      assert init[i] == opts[i];
      LastProbWins(s, init, i);
    }
  }

  /** The factory and the random source stay as they were unless an option
      of their kind is given. */
  lemma {:induction false} OtherFieldsKept(s: Settings, opts: seq<Opt>)
    ensures (forall i :: 0 <= i < |opts| ==> !opts[i].WithFactory?) ==>
      ApplyAll(s, opts).factory == s.factory
    ensures (forall i :: 0 <= i < |opts| ==> !opts[i].WithDice?) ==>
      ApplyAll(s, opts).dice == s.dice
    decreases |opts|
  {
    if opts != [] {
      var n := |opts| - 1;
      OtherFieldsKept(s, opts[..n]);
      assert forall i :: 0 <= i < n ==> opts[..n][i] == opts[i];
    }
  }

  /** An option is well formed when a `Prob` threshold lies in [0, MaxInt64]. */
  predicate ValidOpt(o: Opt)
  {
    o.Prob? ==> 0 <= o.threshold <= MaxInt64
  }

  /** Well-formed options keep the threshold in [0, MaxInt64]. */
  lemma {:induction false} ValidOptsKeepRange(s: Settings, opts: seq<Opt>)
    requires 0 <= s.probability <= MaxInt64
    requires forall i :: 0 <= i < |opts| ==> ValidOpt(opts[i])
    ensures 0 <= ApplyAll(s, opts).probability <= MaxInt64
    decreases |opts|
  {
    if opts != [] {
      ValidOptsKeepRange(s, opts[..|opts| - 1]);
    }
  }

  /** One configuration: its settings and the counters `checks`, `passes`
      (queries that faulted) and `fails` (queries that did not). */
  datatype CfgState = CfgState(settings: Settings, checks: nat, passes: nat, fails: nat)

  /** Every check is counted once as a pass or a fail. */
  predicate Balanced(c: CfgState)
  {
    c.checks == c.passes + c.fails
  }

  /** The configuration `ErrCfg(name, opts)` installs (fault.go:82-85). */
  function NewCfg(opts: seq<Opt>): CfgState
  {
    CfgState(ApplyAll(DefaultSettings(), opts), 0, 0, 0)
  }

  /** The test in `check` (fault.go:37): the sample is at most the threshold. */
  predicate Triggers(probability: int, sample: int)
  {
    sample <= probability
  }

  /** The test in `err` (fault.go:46): an error unless the threshold is at
      most the sample, that is, when the sample is below the threshold. */
  predicate ErrFires(probability: int, sample: int)
  {
    !(probability <= sample)
  }

  /** `check` and `err` decide alike except on a sample equal to the
      threshold, where `check` faults and `err` does not. */
  lemma CheckAndErrDisagreeOnlyAtThreshold(probability: int, sample: int)
    ensures Triggers(probability, sample) != ErrFires(probability, sample) <==> sample == probability
    ensures ErrFires(probability, sample) ==> Triggers(probability, sample)
  {
  }

  /** The counters after one `check` (fault.go:34-43). */
  function Checked(c: CfgState, sample: int): CfgState
  {
    if Triggers(c.settings.probability, sample)
    then c.(checks := c.checks + 1, passes := c.passes + 1)
    else c.(checks := c.checks + 1, fails := c.fails + 1)
  }

  /** A check adds one to `checks` and one to exactly one of `passes` and
      `fails`, so it keeps a configuration balanced; the settings stay. */
  lemma CheckedCounts(c: CfgState, sample: int)
    ensures Checked(c, sample).settings == c.settings
    ensures Checked(c, sample).checks == c.checks + 1
    ensures Checked(c, sample).passes + Checked(c, sample).fails == c.passes + c.fails + 1
    ensures Checked(c, sample).passes == c.passes + 1 <==> Triggers(c.settings.probability, sample)
    ensures Balanced(c) ==> Balanced(Checked(c, sample))
  {
  }

  /** The registry `errCfgMap`: checkpoint name to configuration. */
  type CfgMap = map<string, CfgState>

  predicate AllBalanced(m: CfgMap)
  {
    forall n :: n in m ==> Balanced(m[n])
  }

  /** `ErrPoint(name)` (fault.go:56-68): the error it returns and the registry
      after it. */
  function Point(m: CfgMap, name: string, sample: int): (Option<Error>, CfgMap)
  {
    if name !in m then (None, m)
    else
      var c := m[name];
      var e := if Triggers(c.settings.probability, sample) then c.settings.factory(name) else None;
      (e, m[name := Checked(c, sample)])
  }

  /** `ErrCfg(name, opts)` (fault.go:81-89): the registry after it. */
  function Install(m: CfgMap, name: string, opts: seq<Opt>): CfgMap
  {
    m[name := NewCfg(opts)]
  }

  /** An unregistered name never faults and changes nothing. */
  lemma PointUnregisteredIsInert(m: CfgMap, name: string, sample: int)
    requires name !in m
    ensures Point(m, name, sample) == (None, m)
  {
  }

  /** A query never adds, removes or replaces an entry: it only counts one
      check in the looked-up configuration. When `check` triggers it returns
      what the factory returns (nil if the factory does), otherwise nil; so
      an error is returned exactly when `check` triggers and the factory
      builds one. */
  lemma PointEffect(m: CfgMap, name: string, sample: int)
    requires name in m
    ensures Point(m, name, sample).1.Keys == m.Keys
    ensures forall n :: n in m && n != name ==> Point(m, name, sample).1[n] == m[n]
    ensures Point(m, name, sample).1[name] == Checked(m[name], sample)
    ensures Triggers(m[name].settings.probability, sample) ==>
      Point(m, name, sample).0 == m[name].settings.factory(name)
    ensures !Triggers(m[name].settings.probability, sample) ==> Point(m, name, sample).0 == None
    ensures Point(m, name, sample).0.Some? <==>
      Triggers(m[name].settings.probability, sample) && m[name].settings.factory(name).Some?
    ensures AllBalanced(m) ==> AllBalanced(Point(m, name, sample).1)
  {
  }

  /** Registration installs a fresh configuration with zero counters under
      `name`, replacing any earlier one, and leaves every other name alone. */
  lemma InstallEffect(m: CfgMap, name: string, opts: seq<Opt>)
    ensures Install(m, name, opts).Keys == m.Keys + {name}
    ensures forall n :: n in m && n != name ==> Install(m, name, opts)[n] == m[n]
    ensures Install(m, name, opts)[name] == CfgState(ApplyAll(DefaultSettings(), opts), 0, 0, 0)
    ensures AllBalanced(m) ==> AllBalanced(Install(m, name, opts))
  {
  }

  /** The default configuration: threshold MaxInt64 and the default factory,
      so every sample triggers and every query yields a fault carrying the
      checkpoint name (fault_test.go:11-14). */
  lemma DefaultConfigFaults(m: CfgMap, name: string, sample: int)
    requires IsSample(sample)
    ensures Point(Install(m, name, []), name, sample).0 == Some(Fault(name))
    ensures Point(Install(m, name, []), name, sample).0.value.IsFault()
  {
  }

  /** Several queries to one checkpoint, in order: the errors returned and
      the registry after the last one. */
  function Run(m: CfgMap, name: string, samples: seq<int>): (seq<Option<Error>>, CfgMap)
    decreases |samples|
  {
    if samples == [] then ([], m)
    else
      var (e, m1) := Point(m, name, samples[0]);
      var (es, m2) := Run(m1, name, samples[1..]);
      ([e] + es, m2)
  }

  /** How many samples trigger under `probability`. */
  function Hits(probability: int, samples: seq<int>): nat
    decreases |samples|
  {
    if samples == [] then 0
    else (if Triggers(probability, samples[0]) then 1 else 0) + Hits(probability, samples[1..])
  }

  lemma {:induction false} HitsBounds(probability: int, samples: seq<int>)
    ensures Hits(probability, samples) <= |samples|
    ensures (forall i :: 0 <= i < |samples| ==> Triggers(probability, samples[i])) ==>
      Hits(probability, samples) == |samples|
    ensures (forall i :: 0 <= i < |samples| ==> !Triggers(probability, samples[i])) ==>
      Hits(probability, samples) == 0
    decreases |samples|
  {
    if samples != [] {
      HitsBounds(probability, samples[1..]);
      assert forall i :: 1 <= i < |samples| ==> samples[1..][i - 1] == samples[i];
    }
  }

  /** After any number of queries to a registered name, `checks` has grown by
      the number of queries, `passes` by the number that triggered and
      `fails` by the rest; the i-th query returned what the factory returns
      when the i-th sample triggered, and nil otherwise; no other entry and
      no setting changed. */
  lemma {:induction false} RunCounts(m: CfgMap, name: string, samples: seq<int>)
    requires name in m
    ensures var (es, m') := Run(m, name, samples);
      var c, p := m[name], m[name].settings.probability;
      && m'.Keys == m.Keys
      && (forall n :: n in m && n != name ==> m'[n] == m[n])
      && m'[name].settings == c.settings
      && m'[name].checks == c.checks + |samples|
      && name in m' && m'[name].passes == c.passes + Hits(p, samples)
      && m'[name].fails == c.fails + (|samples| - Hits(p, samples))
      && |es| == |samples|
      && (forall i :: 0 <= i < |samples| ==>
            es[i] == if Triggers(p, samples[i]) then c.settings.factory(name) else None)
    decreases |samples|
  {
    if samples != [] {
      var (e, m1) := Point(m, name, samples[0]);
      RunCounts(m1, name, samples[1..]);
      HitsBounds(m[name].settings.probability, samples[1..]);
      assert forall i :: 1 <= i < |samples| ==> samples[1..][i - 1] == samples[i];
    }
  }

  /** Queries to an unregistered name return no error and change nothing
      (fault_test.go:5-9). */
  lemma {:induction false} RunUnregistered(m: CfgMap, name: string, samples: seq<int>)
    requires name !in m
    ensures Run(m, name, samples).1 == m
    ensures |Run(m, name, samples).0| == |samples|
    ensures forall i :: 0 <= i < |samples| ==> Run(m, name, samples).0[i] == None
    decreases |samples|
  {
    if samples != [] {
      RunUnregistered(m, name, samples[1..]);
    }
  }

  /** With the default configuration every query of a run faults: `passes`
      equals the number of queries and `fails` stays zero. */
  lemma DefaultRunAlwaysFaults(m: CfgMap, name: string, samples: seq<int>)
    requires forall i :: 0 <= i < |samples| ==> IsSample(samples[i])
    ensures var (es, m') := Run(Install(m, name, []), name, samples);
      && |es| == |samples|
      && (forall i :: 0 <= i < |es| ==> es[i] == Some(Fault(name)))
      && name in m' && m'[name].passes == |samples| && m'[name].fails == 0
  {
    var m0 := Install(m, name, []);
    RunCounts(m0, name, samples);
    HitsBounds(MaxInt64, samples);
  }

  /** float64(math.MaxInt64): 2^63 - 1 has no float64 representation and
      rounds to 2^63. Multiplying it by a float64 `p` in [0, 1] is exact (a
      power of two only shifts the exponent), so `float64(math.MaxInt64) *
      float64(p)` is the real number 2^63 * p. */
  const MaxInt64AsFloat: real := 9223372036854775808.0

  /** Go's `int64(x)` for a float `x`, as amd64 executes it: truncation
      toward zero when the result fits in 64 bits, and MinInt64 (the
      processor's "integer indefinite" value) when it does not. */
  function Int64OfFloat(x: real): (t: int)
    ensures MinInt64 <= t <= MaxInt64
    ensures 0.0 <= x < MaxInt64AsFloat ==> t == x.Floor
    ensures x >= MaxInt64AsFloat ==> t == MinInt64
  {
    var t := if x >= 0.0 then x.Floor else -((-x).Floor);
    if MinInt64 <= t <= MaxInt64 then t else MinInt64
  }

  /** The threshold `Prob(p)` computes as written (fault.go:75). For p = 1.0
      the product is 2^63, which does not fit in an int64. */
  function ProbThresholdAsWritten(p: real): (t: int)
    requires 0.0 <= p <= 1.0
    ensures p < 1.0 ==> 0 <= t <= MaxInt64
    ensures p == 1.0 ==> t == MinInt64
  {
    Int64OfFloat(MaxInt64AsFloat * p)
  }

  /** As written, `ErrCfg(name, Prob(1.0))` installs a configuration that
      never faults: no sample is at most MinInt64. */
  lemma ProbOneNeverFaultsAsWritten(m: CfgMap, name: string, samples: seq<int>)
    requires forall i :: 0 <= i < |samples| ==> IsSample(samples[i])
    ensures var (es, m') := Run(Install(m, name, [Prob(ProbThresholdAsWritten(1.0))]), name, samples);
      && |es| == |samples|
      && (forall i :: 0 <= i < |es| ==> es[i] == None)
      && name in m' && m'[name].passes == 0 && m'[name].fails == |samples|
  {
    var m0 := Install(m, name, [Prob(ProbThresholdAsWritten(1.0))]);
    assert m0[name].settings.probability == MinInt64;
    RunCounts(m0, name, samples);
    HitsBounds(MinInt64, samples);
  }

  /** The threshold `Prob(p)` is evidently meant to compute: the product
      2^63 * p rounded down, saturated at MaxInt64. It agrees with the code
      for every p below 1.0. */
  function ProbThreshold(p: real): (t: int)
    requires 0.0 <= p <= 1.0
    ensures 0 <= t <= MaxInt64
    ensures p == 0.0 ==> t == 0
    ensures p == 1.0 ==> t == MaxInt64
    ensures p < 1.0 ==> t == ProbThresholdAsWritten(p)
  {
    var x := (MaxInt64AsFloat * p).Floor;
    if x > MaxInt64 then MaxInt64 else x
  }

  /** `Prob(p)` (fault.go:72-79) as evidently intended: `BetweenInclusive(p,
      0, 1)` panics (here `None`) unless 0 <= p <= 1; otherwise the option
      assigns the corrected threshold `ProbThreshold(p)`, not the code's
      `ProbThresholdAsWritten(p)`. The two differ only at p = 1.0. */
  function ProbOptionIntended(p: real): (o: Option<Opt>)
    ensures o.Some? <==> 0.0 <= p <= 1.0
    ensures o.Some? ==> o.value.Prob? && ValidOpt(o.value)
    ensures o.Some? ==> o.value.threshold == ProbThreshold(p)
  {
    if p < 0.0 || p > 1.0 then None else Some(Prob(ProbThreshold(p)))
  }

  /** With the corrected threshold, `Prob(1.0)` faults on every query, like
      the default configuration. */
  lemma ProbOneAlwaysFaults(m: CfgMap, name: string, samples: seq<int>)
    requires forall i :: 0 <= i < |samples| ==> IsSample(samples[i])
    ensures ProbOptionIntended(1.0).Some?
    ensures var (es, m') := Run(Install(m, name, [ProbOptionIntended(1.0).value]), name, samples);
      && |es| == |samples|
      && (forall i :: 0 <= i < |es| ==> es[i] == Some(Fault(name)))
      && name in m' && m'[name].passes == |samples| && m'[name].fails == 0
  {
    var m0 := Install(m, name, [ProbOptionIntended(1.0).value]);
    assert m0[name].settings.probability == MaxInt64;
    RunCounts(m0, name, samples);
    HitsBounds(MaxInt64, samples);
  }

  /** `Prob(0.0)` still faults when the source draws 0, and only then: the
      trigger test of `check` is inclusive. */
  lemma ProbZeroFaultsOnlyAtZero(m: CfgMap, name: string, sample: int)
    requires IsSample(sample)
    ensures ProbOptionIntended(0.0).Some?
    ensures Point(Install(m, name, [ProbOptionIntended(0.0).value]), name, sample).0.Some? <==> sample == 0
  {
    var m0 := Install(m, name, [ProbOptionIntended(0.0).value]);
    assert m0[name].settings.probability == 0;
  }
}
