/** The scalar assertions of check.go. A Go assertion either returns or
    panics with a message; here it returns an `Outcome`, and `Fail(text)`
    stands for the panic carrying `text`. Values compared are `int` (one
    instance of `cmp.Ordered`); Go's `%v` of an `int` is its decimal text. */
module Check {
  import opened Errors

  /** What an assertion does: return normally, or panic with a message. */
  datatype Outcome = Pass | Fail(text: string)

  /** What `Must` does: return its value, or panic with a message. */
  datatype Result<+T> = Ok(value: T) | Panic(text: string)

  /** Sum of the lengths of `items`. */
  function TotalLength(items: seq<string>): nat
  {
    if items == [] then 0 else |items[0]| + TotalLength(items[1..])
  }

  /** `strings.Join(items, sep)`: the items with one `sep` between each two. */
  function Join(items: seq<string>, sep: string): (r: string)
    ensures items == [] ==> r == ""
    ensures items != [] ==> |r| == TotalLength(items) + (|items| - 1) * |sep|
    ensures items != [] ==> |items[0]| <= |r| && r[..|items[0]|] == items[0]
    ensures items != [] ==> |items[|items| - 1]| <= |r| && r[|r| - |items[|items| - 1]|..] == items[|items| - 1]
    decreases |items|
  {
    if |items| == 0 then ""
    else if |items| == 1 then items[0]
    else
      var rest := Join(items[1..], sep);
      var r := items[0] + sep + rest;
      assert r[|r| - |rest|..] == rest;
      assert (|items| - 2) * |sep| + |sep| == (|items| - 1) * |sep|;
      r
  }

  /** Joining one more item adds one separator and that item at the end. */
  lemma {:induction false} JoinSnoc(items: seq<string>, sep: string, last: string)
    requires items != []
    ensures Join(items + [last], sep) == Join(items, sep) + sep + last
    decreases |items|
  {
    if |items| > 1 {
      assert (items + [last])[1..] == items[1..] + [last];
      JoinSnoc(items[1..], sep, last);
    } else {
      assert (items + [last])[1..] == [last];
    }
  }

  /** `panicMsg(base, msg)` (check.go:10-15): the caller's message words joined
      by single spaces, then ": ", then `base`; just `base` when there are no
      words. */
  function PanicMsg(base: string, msg: seq<string>): (r: string)
    ensures |base| <= |r| && r[|r| - |base|..] == base
    ensures r == base <==> msg == []
    ensures msg != [] ==> r[..|r| - |base|] == Join(msg, " ") + ": "
  {
    if |msg| > 0 then Join(msg, " ") + ": " + base else base
  }

  function DigitChar(d: nat): char
    requires d < 10
  {
    "0123456789"[d]
  }

  function Digits(n: nat): string
    decreases n
  {
    if n < 10 then [DigitChar(n)] else Digits(n / 10) + [DigitChar(n % 10)]
  }

  /** `fmt.Sprintf("%v", x)` for an integer: its decimal text. */
  function Show(x: int): string
  {
    if x < 0 then "-" + Digits(-x) else Digits(x)
  }

  /** `formatCmp(op, a, b, msg)` (check.go:17-19): "a op b", then `panicMsg`:
      the caller's words and ": " come first when there are any. */
  function FormatCmp(op: string, a: int, b: int, msg: seq<string>): (r: string)
    ensures msg == [] ==> r == Show(a) + " " + op + " " + Show(b)
    ensures msg != [] ==> r == Join(msg, " ") + ": " + (Show(a) + " " + op + " " + Show(b))
  {
    PanicMsg(Show(a) + " " + op + " " + Show(b), msg)
  }

  /** Runs two assertions in order: the first panic stops the sequence. */
  function Then(first: Outcome, second: Outcome): Outcome
  {
    if first.Fail? then first else second
  }

  /** `Eq` (check.go:21-26): panics when the values differ. */
  function Eq(a: int, b: int, msg: seq<string>): (r: Outcome)
    ensures r.Pass? <==> a == b
    ensures r.Fail? ==> r.text == FormatCmp("==", a, b, msg)
  {
    if a != b then Fail(FormatCmp("==", a, b, msg)) else Pass
  }

  /** `NotEq` (check.go:28-33): panics when the values are equal. */
  function NotEq(a: int, b: int, msg: seq<string>): (r: Outcome)
    ensures r.Pass? <==> a != b
    ensures r.Fail? ==> r.text == FormatCmp("!=", a, b, msg)
  {
    if a == b then Fail(FormatCmp("!=", a, b, msg)) else Pass
  }

  /** `GT` (check.go:35-40): panics unless a > b. */
  function GT(a: int, b: int, msg: seq<string>): (r: Outcome)
    ensures r.Pass? <==> a > b
    ensures r.Fail? ==> r.text == FormatCmp(">", a, b, msg)
  {
    if a <= b then Fail(FormatCmp(">", a, b, msg)) else Pass
  }

  /** `LT` (check.go:42-47): panics unless a < b. */
  function LT(a: int, b: int, msg: seq<string>): (r: Outcome)
    ensures r.Pass? <==> a < b
    ensures r.Fail? ==> r.text == FormatCmp("<", a, b, msg)
  {
    if a >= b then Fail(FormatCmp("<", a, b, msg)) else Pass
  }

  /** `GTE` (check.go:49-54): panics unless a >= b. */
  function GTE(a: int, b: int, msg: seq<string>): (r: Outcome)
    ensures r.Pass? <==> a >= b
    ensures r.Fail? ==> r.text == FormatCmp(">=", a, b, msg)
  {
    if a < b then Fail(FormatCmp(">=", a, b, msg)) else Pass
  }

  /** `LTE` (check.go:56-61): panics unless a <= b. As written, the panic text
      names the operator ">=" (check.go:59). */
  function LTE(a: int, b: int, msg: seq<string>): (r: Outcome)
    ensures r.Pass? <==> a <= b
    ensures r.Fail? ==> r.text == FormatCmp(">=", a, b, msg)
  {
    if a > b then Fail(FormatCmp(">=", a, b, msg)) else Pass
  }

  /** `Between` (check.go:63-66): `GT(a, low)` then `LT(a, high)`. */
  function Between(a: int, low: int, high: int, msg: seq<string>): (r: Outcome)
    ensures r.Pass? <==> low < a < high
    ensures a <= low ==> r == GT(a, low, msg)
    ensures low < a ==> r == LT(a, high, msg)
  {
    Then(GT(a, low, msg), LT(a, high, msg))
  }

  /** `BetweenInclusive` (check.go:68-71): `GTE(a, low)` then `LTE(a, high)`. */
  function BetweenInclusive(a: int, low: int, high: int, msg: seq<string>): (r: Outcome)
    ensures r.Pass? <==> low <= a <= high
    ensures a < low ==> r == GTE(a, low, msg)
    ensures low <= a ==> r == LTE(a, high, msg)
  {
    Then(GTE(a, low, msg), LTE(a, high, msg))
  }

  /** `Nil` applied to an error (check.go:73-78): panics with "<err> != <nil>"
      unless the error is nil. */
  function Nil(err: Option<Error>, msg: seq<string>): (r: Outcome)
    ensures r.Pass? <==> err.None?
    ensures err.Some? ==> r.text == PanicMsg(err.value.Text() + " != <nil>", msg)
  {
    match err
    case None => Pass
    case Some(e) => Fail(PanicMsg(e.Text() + " != <nil>", msg))
  }

  /** `Must` (check.go:102-105): the value when the error is nil, otherwise
      the panic of `Nil`. */
  function Must<T>(t: T, err: Option<Error>, msg: seq<string>): (r: Result<T>)
    ensures r.Ok? <==> err.None?
    ensures r.Ok? ==> r.value == t
    ensures r.Panic? ==> Nil(err, msg) == Fail(r.text)
  {
    match Nil(err, msg)
    case Pass => Ok(t)
    case Fail(text) => Panic(text)
  }

  /** `Eq` and `NotEq` disagree on every pair of values. */
  lemma EqNotEqComplement(a: int, b: int, msg: seq<string>)
    ensures Eq(a, b, msg).Pass? <==> NotEq(a, b, msg).Fail?
  {
  }

  /** `GT(a, b)` and `LT(b, a)` accept the same pairs; `GTE` accepts exactly
      what `LT` rejects, and `LTE` exactly what `GT` rejects. */
  lemma OrderDuality(a: int, b: int, msg: seq<string>)
    ensures GT(a, b, msg).Pass? <==> LT(b, a, msg).Pass?
    ensures GTE(a, b, msg).Pass? <==> LT(a, b, msg).Fail?
    ensures LTE(a, b, msg).Pass? <==> GT(a, b, msg).Fail?
  {
  }

  /** The cases of TestCmp (check_test.go:26-29). */
  lemma CmpTable()
    ensures GT(1, 0, []).Pass? && GT(0, 0, []).Fail?
    ensures GTE(0, 0, []).Pass? && GTE(100, 0, []).Pass?
  {
  }

  /** When `LTE(a, b)` fails, its text states "a >= b", a claim that holds
      for those operands: `GTE(a, b)` passes on them. */
  lemma LteReportsGteOperator(a: int, b: int, msg: seq<string>)
    requires a > b
    ensures LTE(a, b, msg).Fail?
    ensures LTE(a, b, msg).text == FormatCmp(">=", a, b, msg)
    ensures GTE(a, b, msg).Pass?
  {
  }

  /** When both bounds are violated (an empty range), the lower bound decides
      the panic of `Between` and `BetweenInclusive`. */
  lemma LowerBoundFirst(a: int, low: int, high: int, msg: seq<string>)
    requires a <= low && a >= high
    ensures Between(a, low, high, msg) == Fail(FormatCmp(">", a, low, msg))
    ensures a < low ==> BetweenInclusive(a, low, high, msg) == Fail(FormatCmp(">=", a, low, msg))
  {
  }
}
