/**
 * The data the scoring engine reads: the provider's flat `info` field map and the
 * price/volume/dividend series, as values handed in by the caller.
 */
module Financials {

  /** One entry of the provider's `info` map: a number, a string, or Python `None`. */
  datatype Value = Num(x: real) | Text(s: string) | Null

  /** The provider's `info` map (`yf.Ticker(t).info`). */
  type Info = map<string, Value>

  /** The string `safe_get` hands back for a missing or `None` field. */
  const NotAvailable: Value := Text("N/A")

  /** `info.get(key)`: `None` when the key is absent. */
  function Get(info: Info, key: string): (v: Value)
    ensures key !in info ==> v == Null
  {
    if key in info then info[key] else Null
  }

  /** `StockScorer.safe_get(key)`: the field, or "N/A" when it is absent or `None`. */
  function SafeGet(info: Info, key: string): (v: Value)
    ensures v != Null
    ensures key !in info || info[key] == Null ==> v == NotAvailable
    ensures key in info && info[key] != Null ==> v == info[key]
  {
    var v := Get(info, key);
    if v == Null then NotAvailable else v
  }

  /** Python truthiness: `None`, `0` and `""` are false. */
  predicate Truthy(v: Value)
  {
    match v
    case Num(x) => x != 0.0
    case Text(s) => s != ""
    case Null => false
  }

  /**
   * How an indicator sees a `safe_get` result: "N/A" (missing), a number, or some other
   * string, on which the indicator's numeric comparison raises `TypeError`.
   */
  datatype Reading = Absent | Number(x: real) | NotANumber

  function Classify(v: Value): Reading
  {
    match v
    case Num(x) => Number(x)
    case Text(s) => if s == "N/A" then Absent else NotANumber
    case Null => Absent
  }

  /** The reading of `safe_get(key)`. */
  function Read(info: Info, key: string): (r: Reading)
    ensures key !in info || info[key] == Null ==> r == Absent
    ensures key in info && info[key].Num? ==> r == Number(info[key].x)
  {
    Classify(SafeGet(info, key))
  }

  /** One sample of `Ticker.history()`: the close and the traded volume. */
  datatype Bar = Bar(close: real, volume: real)

  /**
   * What the indicators fetch from the provider besides `info`: the 6-month and 3-month
   * daily histories and the dividend series (amounts, oldest first). A fetch that fails
   * or returns nothing is an empty sequence.
   */
  datatype Market = Market(sixMonths: seq<Bar>, threeMonths: seq<Bar>, dividends: seq<real>)

  function Sum(xs: seq<real>): real
  {
    if xs == [] then 0.0 else Sum(xs[..|xs| - 1]) + xs[|xs| - 1]
  }

  function Volumes(bars: seq<Bar>): (vs: seq<real>)
    ensures |vs| == |bars|
  {
    seq(|bars|, i requires 0 <= i < |bars| => bars[i].volume)
  }

  /** The pandas mean of a non-empty column. */
  function Mean(xs: seq<real>): real
    requires xs != []
  {
    Sum(xs) / (|xs| as real)
  }
}
