// Values shared by the KOSPI market-signal code (analysis/technical.py,
// update_data.py, kstock_data.py): pandas floats, which may be NaN; the
// three-way trend rule on the close and two moving averages; Python's
// exceptions; and JSON values as the market-data index file holds them.
module MarketData {
  import opened Common

  /**
   * A pandas float64 cell.  NaN is what a rolling window that is not yet
   * full produces; every comparison with it is false.
   */
  datatype Float = NaN | Fin(v: real)

  predicate Gt(a: Float, b: Float) { a.Fin? && b.Fin? && a.v > b.v }
  predicate Lt(a: Float, b: Float) { a.Fin? && b.Fin? && a.v < b.v }
  predicate Ge(a: Float, b: Float) { a.Fin? && b.Fin? && a.v >= b.v }
  predicate Le(a: Float, b: Float) { a.Fin? && b.Fin? && a.v <= b.v }

  /** `a - b`; NaN in, NaN out. */
  function Sub(a: Float, b: Float): (r: Float)
    ensures r.Fin? <==> a.Fin? && b.Fin?
    ensures r.Fin? ==> a.v == b.v + r.v
  {
    if a.Fin? && b.Fin? then Fin(a.v - b.v) else NaN
  }

  /** `a / b * 100`; a zero divisor yields a non-finite value, here NaN. */
  function Percent(a: Float, b: Float): (r: Float)
    ensures r.Fin? <==> a.Fin? && b.Fin? && b.v != 0.0
    ensures r.Fin? ==> r.v * b.v == a.v * 100.0
  {
    if a.Fin? && b.Fin? && b.v != 0.0 then Fin(a.v / b.v * 100.0) else NaN
  }

  /** The exceptions the market-signal code can raise. */
  datatype PyError = IndexError | ValueError | TypeError | AttributeError | FileNotFound

  /** A call that returns a value or raises. */
  datatype Outcome<T> = Done(value: T) | Raised(error: PyError)

  // ---------------------------------------------------------------------
  // Trend
  // ---------------------------------------------------------------------

  datatype Trend = Bullish | Bearish | Neutral

  function TrendName(t: Trend): string
  {
    match t
    case Bullish => "BULLISH"
    case Bearish => "BEARISH"
    case Neutral => "NEUTRAL"
  }

  /**
   * The trend rule both KOSPI analyses apply: BULLISH when the close is
   * above the 20-day average and that is above the 60-day one, BEARISH when
   * both are strictly below, NEUTRAL otherwise (in particular whenever a
   * value is NaN).
   */
  function TrendOf(close: Float, ma20: Float, ma60: Float): (t: Trend)
    ensures t == Bullish <==> Gt(close, ma20) && Gt(ma20, ma60)
    ensures t == Bearish <==> Lt(close, ma20) && Lt(ma20, ma60)
    ensures (close.NaN? || ma20.NaN? || ma60.NaN?) ==> t == Neutral
  {
    if Gt(close, ma20) && Gt(ma20, ma60) then Bullish
    else if Lt(close, ma20) && Lt(ma20, ma60) then Bearish
    else Neutral
  }

  lemma TrendNamesDistinct(a: Trend, b: Trend)
    ensures TrendName(a) == TrendName(b) <==> a == b
  {
    if a != b {
      assert TrendName(a)[2] != TrendName(b)[2];
    }
  }

  // ---------------------------------------------------------------------
  // JSON
  // ---------------------------------------------------------------------

  /**
   * A JSON value as Python's `json` module reads and writes it; JNaN is the
   * non-standard `NaN` literal it writes for a NaN float and reads back.
   */
  datatype Json =
    | JNull
    | JBool(b: bool)
    | JNum(n: real)
    | JNaN
    | JStr(s: string)
    | JArr(items: seq<Json>)
    | JObj(fields: map<string, Json>)

  function FloatJson(x: Float): (j: Json)
    ensures j.JNum? || j.JNaN?
    ensures x.Fin? ==> j == JNum(x.v)
  {
    if x.Fin? then JNum(x.v) else JNaN
  }

  /** Python `d.get(key, default)` on a decoded object. */
  function Get(fields: map<string, Json>, key: string, default: Json): (j: Json)
    ensures key in fields ==> j == fields[key]
    ensures key !in fields ==> j == default
  {
    if key in fields then fields[key] else default
  }

  /**
   * The value a decoded JSON value takes in a numeric comparison or number
   * format: numbers and booleans (an `int` subclass) are numbers, anything
   * else is not.
   */
  function AsNumber(j: Json): (r: Option<Float>)
    ensures r.Some? <==> j.JNum? || j.JNaN? || j.JBool?
  {
    match j
    case JNum(n) => Some(Fin(n))
    case JNaN => Some(NaN)
    case JBool(b) => Some(Fin(if b then 1.0 else 0.0))
    case _ => None
  }

  /** `j > t` in Python: a TypeError unless `j` is a number. */
  function PyGt(j: Json, t: real): (r: Outcome<bool>)
    ensures r.Raised? <==> AsNumber(j).None?
    ensures r.Raised? ==> r.error == TypeError
    ensures r.Done? ==> (r.value <==> Gt(AsNumber(j).value, Fin(t)))
  {
    var x := AsNumber(j);
    if x.None? then Raised(TypeError) else Done(Gt(x.value, Fin(t)))
  }

  /** `j < t` in Python: a TypeError unless `j` is a number. */
  function PyLt(j: Json, t: real): (r: Outcome<bool>)
    ensures r.Raised? <==> AsNumber(j).None?
    ensures r.Raised? ==> r.error == TypeError
    ensures r.Done? ==> (r.value <==> Lt(AsNumber(j).value, Fin(t)))
  {
    var x := AsNumber(j);
    if x.None? then Raised(TypeError) else Done(Lt(x.value, Fin(t)))
  }

  /** Python truthiness of a decoded value (`if alert:`). */
  predicate Truthy(j: Json)
  {
    match j
    case JNull => false
    case JBool(b) => b
    case JNum(n) => n != 0.0
    case JNaN => true
    case JStr(s) => s != ""
    case JArr(items) => items != []
    case JObj(fields) => fields != map[]
  }
}
