/** The fault-injection registry of fault.go as objects that change in
    place: one `Config` per checkpoint (`errCfg`), whose counters each query
    updates, and the `Registry` (`errCfgMap`), a map from checkpoint name to
    its `Config`. Each method is proved against the functions of module
    `FaultSpec`, where the properties are stated and proved. */
module Fault {
  import opened Errors
  import opened FaultSpec

  /** `errCfg` (fault.go:25-32): the settings of one checkpoint and its
      counters. */
  class Config {
    var probability: int
    var factory: Factory
    var dice: Dice
    var checks: nat
    var passes: nat
    var fails: nat

    /** The configuration as a value. */
    function State(): CfgState
      reads this
    {
      CfgState(Settings(probability, factory, dice), checks, passes, fails)
    }

    /** Every check is counted once as a pass or a fail: `Balanced(State())`
        stated on the fields. */
    predicate Counted()
      reads this
    {
      checks == passes + fails
    }

    /** `defaultCfg` (fault.go:91-97): threshold MaxInt64, the shared random
        source, the default factory and zero counters. */
    constructor Default()
      ensures State() == CfgState(DefaultSettings(), 0, 0, 0)
      ensures Counted()
    {
      probability := MaxInt64;
      dice := SharedDice;
      factory := DefaultFactory;
      checks, passes, fails := 0, 0, 0;
    }

    /** Runs one option closure on this configuration (fault.go:84); the
        closure of `Prob` assigns the threshold (fault.go:76-78). Only the
        field the option names changes; the counters stay. */
    method ApplyOpt(o: Opt)
      modifies this
      ensures State() == old(State()).(settings := Apply(old(State()).settings, o))
    {
      match o
      case Prob(t) => probability := t;
      case WithFactory(f) => factory := f;
      case WithDice(d) => dice := d;
    }

    /** `check` (fault.go:34-43), given the sample the random source draws:
        counts the check, then a pass when the sample is at most the
        threshold, and a fail otherwise. */
    method Check(sample: int) returns (hit: bool)
      modifies this`checks, this`passes, this`fails
      ensures hit <==> Triggers(probability, sample)
      ensures State() == Checked(old(State()), sample)
      ensures old(Counted()) ==> Counted()
    {
      checks := checks + 1;
      if sample <= probability {
        passes := passes + 1;
        return true;
      }
      fails := fails + 1;
      return false;
    }

    /** `err` (fault.go:45-50), given the sample: nil when the threshold is
        at most the sample, otherwise what the factory returns. It counts
        nothing. */
    function Err(name: string, sample: int): (e: Option<Error>)
      reads this
      ensures ErrFires(probability, sample) ==> e == factory(name)
      ensures !ErrFires(probability, sample) ==> e == None
      ensures e.Some? ==> Triggers(probability, sample)
    {
      if probability <= sample then None else factory(name)
    }
  }

  /** `errCfgMap` (fault.go:52) with the functions that read and write it. */
  class Registry {
    var cfgs: map<string, Config>

    /** Each name has its own configuration object, and every configuration
        has counted each check once. */
    ghost predicate Valid()
      reads this, cfgs.Values
    {
      && (forall n, m :: n in cfgs && m in cfgs && n != m ==> cfgs[n] != cfgs[m])
      && (forall n :: n in cfgs ==> cfgs[n].Counted())
    }

    /** The registry as a value. */
    ghost function View(): CfgMap
      reads this, cfgs.Values
    {
      map n | n in cfgs :: cfgs[n].State()
    }

    /** A valid registry is balanced as a value: every configuration in its
        view counts each check once. */
    lemma ViewBalanced()
      requires Valid()
      ensures AllBalanced(View())
    {
      forall n | n in View()
        ensures Balanced(View()[n])
      {
        assert cfgs[n].Counted();
      }
    }

    constructor ()
      ensures Valid() && cfgs == map[] && View() == map[]
    {
      cfgs := map[];
    }

    /** `ErrPoint(name)` (fault.go:56-68), given the sample the looked-up
        configuration's random source draws. */
    method ErrPoint(name: string, sample: int) returns (e: Option<Error>)
      requires Valid()
      modifies if name in cfgs then {cfgs[name]} else {}
      ensures Valid() && cfgs == old(cfgs)
      ensures (e, View()) == Point(old(View()), name, sample)
    {
      if name !in cfgs {
        return None;
      }
      var cfg := cfgs[name];
      var hit := cfg.Check(sample);
      forall n | n in cfgs && n != name
        ensures cfgs[n].State() == old(cfgs[n].State())
      {
      }
      assert View() == old(View())[name := cfg.State()];
      if !hit {
        return None;
      }
      return cfg.factory(name);
    }

    /** `ErrCfg(name, opts...)` (fault.go:81-89): builds a default
        configuration, runs the options on it first to last, and installs it
        under `name`, replacing any earlier entry. */
    method ErrCfg(name: string, opts: seq<Opt>)
      requires Valid()
      modifies this
      ensures Valid()
      ensures View() == Install(old(View()), name, opts)
      ensures name in cfgs && fresh(cfgs[name])
      ensures forall n :: n in old(cfgs) && n != name ==> n in cfgs && cfgs[n] == old(cfgs[n])
    {
      var cfg := Build(opts);
      cfgs := cfgs[name := cfg];
      assert View() == old(View())[name := cfg.State()];
    }
  }

  /** The first half of `ErrCfg` (fault.go:82-85): a fresh default
      configuration with the options run on it in order. */
  method Build(opts: seq<Opt>) returns (cfg: Config)
    ensures fresh(cfg)
    ensures cfg.State() == NewCfg(opts) && cfg.Counted()
  {
    cfg := new Config.Default();
    for i := 0 to |opts|
      modifies cfg
      invariant cfg.State() == CfgState(ApplyAll(DefaultSettings(), opts[..i]), 0, 0, 0)
    {
      cfg.ApplyOpt(opts[i]);
      assert opts[..i + 1][..i] == opts[..i];
    }
    assert opts[..|opts|] == opts;
  }

  /** The two cases of fault_test.go: a name with no configuration yields no
      error (lines 5-9); after `ErrCfg("one")` with no options, `ErrPoint`
      yields a fault carrying the name (lines 11-14). */
  method FaultTestCases(sample: int) returns (before: Option<Error>, after: Option<Error>)
    requires IsSample(sample)
    ensures before == None
    ensures after == Some(Fault("one")) && after.value.IsFault()
  {
    var registry := new Registry();
    before := registry.ErrPoint("one", sample);
    registry.ErrCfg("one", []);
    DefaultConfigFaults(map[], "one", sample);
    after := registry.ErrPoint("one", sample);
  }
}
