# check: assertions and fault injection, modelled in Dafny

This project models the core of the Go package `check`, a small helper
library for test suites. It has three parts.

- **Fault injection** (fault.go). A registry maps checkpoint names to
  configurations. Each configuration holds a trigger threshold
  (`probability`), an error factory, a random source and three counters
  (`checks`, `passes`, `fails`). `ErrCfg(name, opts...)` builds a default
  configuration, runs the options on it in order and installs it under the
  name. `ErrPoint(name)` looks the name up, draws one sample, counts it, and
  returns what the factory returns when the sample is at most the threshold.
  `Prob(p)` is the option that turns a fraction `p` in [0, 1] into a
  threshold.
- **Slice assertions** (slice.go). `SliceEq`, `SliceContains` and
  `SliceSorted` scan their slices with index loops and panic on failure.
- **Scalar assertions** (check.go). `Eq`, `NotEq`, `GT`, `LT`, `GTE`, `LTE`,
  `Between`, `BetweenInclusive` and `Must` each decide by one comparison.
  They panic with a message that `panicMsg` builds.

Files:

- `errors.dfy` (module `Errors`): Go's nil-able `error` as `Option<Error>`.
  An `Error` is the sentinel `ErrFault`, a default-factory fault
  `Fault(name)`, or any other error known by its text.
- `check.dfy` (module `Check`): the scalar assertions as functions. Each
  returns `Pass` or `Fail(text)`, and `Fail(text)` stands for the panic.
- `slice.dfy` (module `Slice`): the slice assertions as methods with loops.
  Each is proved equivalent to a pure predicate. A panic is a `Verdict` that
  records what its message reports.
- `fault_spec.dfy` (module `FaultSpec`): the registry as values. It defines
  the settings, the options, the counters, one query (`Point`), one
  registration (`Install`) and a run of queries (`Run`). The lemmas about
  them are here.
- `fault.dfy` (module `Fault`): the registry as objects that change in
  place. `Config` models `errCfg`; its counters are fields that `Check`
  updates. `Registry` models `errCfgMap`, a map from names to `Config`
  objects. Each method's postcondition ties the new state to the functions
  of `FaultSpec`.

Behaviour of the code worth noting:

- `check` triggers when the sample is at most the threshold
  (fault.go:37), not strictly below it. The unused `err` method
  (fault.go:46) uses the strict test. `CheckAndErrDisagreeOnlyAtThreshold`
  shows the two differ only when the sample equals the threshold.
- `Prob` multiplies by `float64(math.MaxInt64)`, which is 2^63, not
  2^63 - 1. For p = 1.0 this overflows (see Findings).
- `Prob(0.0)` gives threshold 0. Because the test is inclusive, a sample of
  0 still faults (`ProbZeroFaultsOnlyAtZero`).
- `passes` counts queries that faulted and `fails` counts queries that did
  not.

## Model

| member | source | states |
|---|---|---|
| `Check.Join` | check.go:12 | `strings.Join`: empty for no items; otherwise its length is the items' total length plus one separator between each two, and it starts with the first item and ends with the last |
| `Check.JoinSnoc` | check.go:12 | joining one more item appends exactly one separator and that item |
| `Check.PanicMsg` | check.go:10-15 | `base` is always a suffix of the message; the message equals `base` exactly when there are no words; otherwise what precedes `base` is the words joined by single spaces followed by ": " |
| `Check.FormatCmp` | check.go:17-19 | the failure text of a comparison: "a op b" with both values in decimal, preceded by the caller's words joined by spaces and ": " when there are any |
| `Check.Eq` | check.go:21-26 | fails iff a != b, with the text "a == b" passed through `panicMsg` |
| `Check.NotEq` | check.go:28-33 | fails iff a == b, with the text "a != b" |
| `Check.GT` | check.go:35-40 | passes iff a > b; the failure text uses ">" |
| `Check.LT` | check.go:42-47 | passes iff a < b; the failure text uses "<" |
| `Check.GTE` | check.go:49-54 | passes iff a >= b; the failure text uses ">=" |
| `Check.LTE` | check.go:56-61 | passes iff a <= b; the failure text uses ">=", as the code writes it |
| `Check.Between` | check.go:63-66 | passes iff low < a < high; when a <= low the outcome is that of `GT(a, low)`, otherwise that of `LT(a, high)` |
| `Check.BetweenInclusive` | check.go:68-71 | passes iff low <= a <= high; when a < low the outcome is that of `GTE(a, low)`, otherwise that of `LTE(a, high)` |
| `Check.Nil` | check.go:73-78 | for an error value: passes iff the error is nil; otherwise the text is "<error text> != <nil>" through `panicMsg` |
| `Check.Must` | check.go:102-105 | returns `t` unchanged iff the error is nil; otherwise panics with exactly the text of `Nil` |
| `Check.EqNotEqComplement` | check.go:21-33 | `Eq` passes exactly when `NotEq` fails |
| `Check.OrderDuality` | check.go:35-61 | `GT(a, b)` agrees with `LT(b, a)`; `GTE` passes exactly when `LT` fails, and `LTE` exactly when `GT` fails |
| `Check.CmpTable` | check_test.go:26-29 | `GT(1, 0)` passes, `GT(0, 0)` fails, `GTE(0, 0)` and `GTE(100, 0)` pass |
| `Check.LteReportsGteOperator` | check.go:56-61 | when `LTE(a, b)` fails, its text claims "a >= b", which holds: `GTE(a, b)` passes on the same operands |
| `Check.LowerBoundFirst` | check.go:63-71 | when both bounds are violated, the panic names the lower bound |
| `Slice.AdjacentChain` | slice.go:31-37 | if every adjacent pair is ordered, then s[i] <= s[j] for all i <= j |
| `Slice.AdjacentOrderedIffSorted` | slice.go:31-37 | checking adjacent pairs decides sortedness in both directions |
| `Slice.SliceEq` | slice.go:8-18 | passes iff the slices are equal; reports a length mismatch (with both lengths) iff the lengths differ, before any element is compared; otherwise reports the first differing index, before which all elements are equal |
| `Slice.SliceContains` | slice.go:20-28 | passes iff `v` occurs in the slice, and reports "not found" otherwise (so an empty slice always fails) |
| `Slice.SliceSorted` | slice.go:30-37 | passes iff s[i] <= s[j] for all i <= j; on failure reports the first index i with s[i] < s[i-1], and the prefix before i is sorted |
| `Slice.SliceEqTable` | slice_test.go:14-21 | the outcomes of the integer cases of TestSliceEq, including two empty slices |
| `Slice.SliceContainsTable` | slice_test.go:54-59 | the outcomes of the integer cases of TestSliceContains |
| `Slice.SliceSortedTable` | slice_test.go:91-99 | the outcomes of the integer cases of TestSliceSorted, with the index each failure reports |
| `FaultSpec.DefaultFactory` | fault.go:19-21 | the default factory never returns nil; its error wraps `ErrFault` and its text is "fault: " followed by the name |
| `FaultSpec.Apply` | fault.go:76-78 | an option assigns its own field and leaves the others unchanged; `Prob` changes only the threshold |
| `FaultSpec.ApplyAll` | fault.go:83-85 | the settings after running the options on them first to last; what that means is stated by `NoProbKeepsThreshold`, `LastProbWins`, `OtherFieldsKept` and `ValidOptsKeepRange` |
| `FaultSpec.NoProbKeepsThreshold` | fault.go:81-85 | without a `Prob` option the threshold is the starting one |
| `FaultSpec.LastProbWins` | fault.go:81-85 | options apply left to right, so the threshold is that of the last `Prob` option |
| `FaultSpec.OtherFieldsKept` | fault.go:81-85 | the factory and the random source stay as they were unless an option of their kind is given |
| `FaultSpec.ValidOptsKeepRange` | fault.go:73-78 | thresholds in [0, MaxInt64] keep the configured threshold in [0, MaxInt64] |
| `FaultSpec.CheckAndErrDisagreeOnlyAtThreshold` | fault.go:34-50 | `check` and `err` decide differently exactly when the sample equals the threshold; `err` firing implies `check` triggers |
| `FaultSpec.Checked` | fault.go:34-43 | the configuration after one `check`: one more check, and one more pass when the sample triggers or one more fail otherwise; `CheckedCounts` states it |
| `FaultSpec.CheckedCounts` | fault.go:34-43 | a check adds one to `checks` and one to exactly one of `passes` and `fails` (to `passes` iff it triggers), keeps `checks == passes + fails`, and leaves the settings alone |
| `FaultSpec.Point` | fault.go:56-68 | one `ErrPoint` on the registry as a value: the error returned and the registry after it; `PointUnregisteredIsInert` and `PointEffect` state its behaviour |
| `FaultSpec.Install` | fault.go:81-89 | one `ErrCfg` on the registry as a value: the registry with `name` bound to the default configuration after the options; `InstallEffect` states its behaviour |
| `FaultSpec.PointUnregisteredIsInert` | fault.go:60-63 | a query on a name with no entry returns no error and leaves the registry unchanged |
| `FaultSpec.PointEffect` | fault.go:56-68 | a query on a registered name keeps the same names and every other entry, counts one check in its own entry, and returns what the factory returns when `sample <= probability` and nil otherwise, so an error iff the sample triggers and the factory builds one; it keeps every entry balanced |
| `FaultSpec.InstallEffect` | fault.go:81-89 | registration adds or replaces only `name`, with the default settings after the options and zero counters |
| `FaultSpec.DefaultConfigFaults` | fault.go:91-97 | under the default configuration every sample in [0, MaxInt64] yields `Fault(name)`, an error that wraps `ErrFault` |
| `FaultSpec.RunCounts` | fault.go:56-68 | after n queries to a registered name, `checks` grew by n, `passes` by the number of triggering samples and `fails` by the rest; one result per query, and query i returned what the factory returns when sample i triggered and nil otherwise; nothing else changed |
| `FaultSpec.RunUnregistered` | fault.go:60-63 | any number of queries to an unregistered name return no error and change nothing |
| `FaultSpec.DefaultRunAlwaysFaults` | fault.go:91-97 | under the default configuration a run returns one result per query and every one is `Fault(name)`, so `passes` equals the number of queries and `fails` stays 0 |
| `FaultSpec.Int64OfFloat` | fault.go:75 | Go's `int64(x)` of a float on amd64: always an int64; truncation for x in [0, 2^63); MinInt64 for x >= 2^63 |
| `FaultSpec.ProbThresholdAsWritten` | fault.go:75 | the threshold as the code computes it on amd64: in [0, MaxInt64] for p < 1.0, and MinInt64 for p = 1.0 |
| `FaultSpec.ProbOneNeverFaultsAsWritten` | fault.go:72-79 | as written, a configuration built with `Prob(1.0)` never faults: a run returns one nil per query and every query is a fail |
| `FaultSpec.ProbThreshold` | fault.go:75 | the intended threshold: in [0, MaxInt64], 0 for p = 0.0, MaxInt64 for p = 1.0, and equal to the code's value for every p < 1.0 |
| `FaultSpec.ProbOptionIntended` | fault.go:72-79 | `Prob(p)` with the corrected threshold: panics iff p is outside [0, 1]; otherwise it is a `Prob` option with threshold `ProbThreshold(p)` in [0, MaxInt64] |
| `FaultSpec.ProbOneAlwaysFaults` | fault.go:72-79 | with the intended threshold, `Prob(1.0)` faults on every query: a run returns `Fault(name)` once per query |
| `FaultSpec.ProbZeroFaultsOnlyAtZero` | fault.go:37 | after `Prob(0.0)` a query faults iff the sample is 0 |
| `Fault.Config.Default` | fault.go:91-97 | `defaultCfg`: threshold MaxInt64, the shared random source, the default factory, zero counters |
| `Fault.Config.ApplyOpt` | fault.go:83-85 | running one option changes only the field it names; the counters stay |
| `Fault.Config.Check` | fault.go:34-43 | returns true iff `sample <= probability`; the new counters are those of `Checked` (one more check, and one more pass or fail); the balance of the counters is kept |
| `Fault.Config.Err` | fault.go:45-50 | returns nil when `probability <= sample`, otherwise what the factory returns; an error only when `check` would trigger; changes nothing |
| `Fault.Registry.ViewBalanced` | fault.go:34-43 | in a valid registry every configuration of the view has `checks == passes + fails` |
| `Fault.Registry.constructor` | fault.go:52 | the registry starts empty |
| `Fault.Registry.ErrPoint` | fault.go:56-68 | the returned error and the new registry are exactly `Point` of the old registry; the map itself and every other configuration object stay the same |
| `Fault.Build` | fault.go:82-85 | a fresh configuration whose state is `NewCfg(opts)`: the default settings with the options applied first to last, counters zero and balanced |
| `Fault.Registry.ErrCfg` | fault.go:81-89 | the new registry is exactly `Install` of the old one; the installed object is new; every other name keeps its object |
| `Fault.FaultTestCases` | fault_test.go:5-14 | an unconfigured name yields no error; after `ErrCfg("one")` the query yields a fault carrying "one" |

## Findings

| source | as written | input that shows it | evidently intended | confidence | as-written member | corrected member |
|---|---|---|---|---|---|---|
| fault.go:75 | `Prob` multiplies p by `float64(math.MaxInt64)`, which is 2^63. For p = 1.0 the product 2^63 does not fit in an int64. Go leaves the conversion's result to the platform, and amd64 yields MinInt64. No sample is at most MinInt64, so the checkpoint never faults. | `ErrCfg("x", Prob(1.0))`, then any `ErrPoint("x")` | `Prob(1.0)` should fault on every query, like the default threshold MaxInt64 | medium; not executed; the result depends on the platform's out-of-range conversion (MinInt64 on amd64) | `FaultSpec.ProbOneNeverFaultsAsWritten` | `FaultSpec.ProbOneAlwaysFaults` |

`FaultSpec.ProbThresholdAsWritten` models the conversion as written, and
`FaultSpec.ProbThreshold` is the corrected one. It saturates at MaxInt64
and agrees with the code for every p below 1.0.
`FaultSpec.ProbOptionIntended` is `Prob(p)` with the corrected threshold;
`Prob(ProbThresholdAsWritten(p))` is the option as the code builds it.

## Left out

- Concurrency: the `sync.RWMutex` around the registry and the
  `atomic.Int64` counters. The registry is modelled as sequential code.
- Randomness: `math/rand` and the time-based seed. Each query takes the
  sample the random source would draw as a parameter. `Dice` only records
  which source a configuration uses.
- Counter overflow: the counters are unbounded naturals, not int64.
- `Fault.Config.Check`: does not model the `NotNil(e)` guard at the top of
  `check`. A Dafny object reference is never nil, so the guard always
  passes.
- Options: `ErrOpt` is a closure over the unexported `errCfg`, so only code
  inside the package can write one, and `Prob` is the only option the
  package defines. The model's `WithFactory` and `WithDice` are hypothetical
  in-package options that would set the factory or the random source; no
  source code builds them.
- `FaultSpec.ProbOptionIntended`: does not model NaN or infinite inputs, and does
  not build the text of the range-check panic; a panic is `None`.
- `Errors.Error`: only the sentinel and default-factory errors count as
  faults. A custom factory's error is known only by its text.
- Values: the scalar assertions and `SliceSorted` compare `int` in place of
  any `cmp.Ordered` type. `SliceEq` and `SliceContains` are generic over
  types with equality.
- `Slice.SliceEq` and `Slice.SliceContains` use Dafny's equality, which is
  reflexive. Go's `==` on a floating-point NaN is not: `SliceEq` panics on
  two slices holding NaN at the same index, and `SliceContains(s, NaN)`
  always panics. The model does not capture that.
- `Slice.SliceEq`: does not build the panic text. The `Verdict` keeps the
  lengths or the index it reports, but not the `%v` rendering of slices and
  elements.
- `Slice.SliceContains`: does not build the "not found" panic text.
- `Slice.SliceSorted`: does not build the panic text. The `Verdict` keeps
  index i; the text also prints i-1 and the two elements.
- `Check.Nil`: modelled only for error values, the way `Must` uses it.
  `NotNil` is left out; it is used only by the `NotNil(e)` guard.
- `Panics`, `Is` and `ErrIs` (check.go:87-116) and all of catch.go: they
  depend on Go's panic/recover, runtime type assertions, `errors.Is` chain
  walking and stack capture. In catch.go:19 the test `len(catchable) >= 0`
  is always true, so the wrapping at catch.go:30 cannot be reached.
- Tests and benchmarks: their integer cases are stated as lemmas or
  methods. The string cases and bench_test.go are not modelled.
