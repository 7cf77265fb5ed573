// kstock_data.py: the data loader over the market-data index and the
// cached KOSPI / KOSDAQ histories.  The KOSPI summary, signal, trend and
// overbought checks and the one-line status read the decoded index; the
// history readers load a CSV once and then serve from their cache until
// `refresh`.  File reads are I/O: their decoded contents come in as values
// (None for a file that is missing or cannot be read).
module KStockData {
  import opened Common
  import opened MarketData
  import UpdateData

  /** One row of a history CSV after parsing, date-sorted. */
  datatype Quote = Quote(date: string, close: Float, high: Float, low: Float, open: Float, volume: Float)

  /** `_load_index`: the decoded index, or `{}` when reading or decoding fails. */
  function LoadIndex(file: Option<Json>): (j: Json)
    ensures file.None? ==> j == JObj(map[])
    ensures file.Some? ==> j == file.value
  {
    if file.Some? then file.value else JObj(map[])
  }

  // ---------------------------------------------------------------------
  // The KOSPI summary and what is derived from it
  // ---------------------------------------------------------------------

  /** The summary dict; every key is present, a missing index value is None (JNull). */
  datatype Summary = Summary(price: Json, changePct: Json, trend: Json, rsi: Json, alert: Json)

  /**
   * `kospi_summary`: the `indices.kospi` entry of the index, each field
   * read with `.get` (so None when absent).  `.get` on a decoded value that
   * is not an object raises AttributeError.
   */
  function KospiSummary(index: Json): (r: Outcome<Summary>)
    ensures r.Raised? ==> r.error == AttributeError
    ensures index == JObj(map[]) ==> r == Done(Summary(JNull, JNull, JNull, JNull, JNull))
  {
    if !index.JObj? then Raised(AttributeError)
    else
      var indices := Get(index.fields, "indices", JObj(map[]));
      if !indices.JObj? then Raised(AttributeError)
      else
        var idx := Get(indices.fields, "kospi", JObj(map[]));
        if !idx.JObj? then Raised(AttributeError)
        else Done(Summary(Get(idx.fields, "last_price", JNull), Get(idx.fields, "change_percent", JNull),
                          Get(idx.fields, "trend", JNull), Get(idx.fields, "rsi", JNull),
                          Get(idx.fields, "alert", JNull)))
  }

  datatype Signal = Caution | Opportunity | HoldTrend | Watch

  function SignalText(s: Signal): string
  {
    match s
    case Caution => "CAUTION: 과매수, 익절 고려"
    case Opportunity => "OPPORTUNITY: 과매도, 매수 고려"
    case HoldTrend => "HOLD: 상승 추세 유지"
    case Watch => "NEUTRAL: 관망"
  }

  /**
   * The signal ladder, first match: CAUTION for an RSI above 80 in a
   * BULLISH trend, OPPORTUNITY below 30 in a BEARISH one, HOLD for any
   * other BULLISH trend, NEUTRAL otherwise.
   */
  function SignalRule(above80: bool, below30: bool, trend: Json): (s: Signal)
    ensures s == Caution <==> above80 && trend == JStr("BULLISH")
    ensures s == Opportunity <==> !(above80 && trend == JStr("BULLISH")) && below30 && trend == JStr("BEARISH")
    ensures s == HoldTrend <==> !above80 && trend == JStr("BULLISH")
    ensures s == Watch <==> trend != JStr("BULLISH") && !(below30 && trend == JStr("BEARISH"))
  {
    if above80 && trend == JStr("BULLISH") then Caution
    else if below30 && trend == JStr("BEARISH") then Opportunity
    else if trend == JStr("BULLISH") then HoldTrend
    else Watch
  }

  /**
   * `kospi_signal` as written: `summary.get('rsi', 50)` never uses its
   * default, because the summary always holds the key; an RSI missing from
   * the index is None, and `None > 80` raises TypeError.
   */
  function KospiSignalAsWritten(index: Json): (r: Outcome<Signal>)
    ensures KospiSummary(index).Raised? ==> r == Raised(AttributeError)
    ensures KospiSummary(index).Done? ==> (r.Raised? <==> AsNumber(KospiSummary(index).value.rsi).None?)
    ensures r.Raised? ==> r.error == AttributeError || r.error == TypeError
    ensures r.Done? ==> (r.value == Caution <==> (Gt(AsNumber(KospiSummary(index).value.rsi).value, Fin(80.0))
                                                 && KospiSummary(index).value.trend == JStr("BULLISH")))
  {
    var summary := KospiSummary(index);
    if summary.Raised? then Raised(summary.error)
    else
      var rsi, trend := summary.value.rsi, summary.value.trend;
      var above80 := PyGt(rsi, 80.0);
      if above80.Raised? then Raised(above80.error)
      else Done(SignalRule(above80.value, PyLt(rsi, 30.0).value, trend))
  }

  /** A None value read as the default `.get` was meant to supply. */
  function OrDefault(j: Json, default: Json): (r: Json)
    ensures j != JNull ==> r == j
    ensures j == JNull ==> r == default
  {
    if j == JNull then default else j
  }

  /**
   * `kospi_signal` with the defaults it evidently intends: a missing RSI
   * reads as 50 and a missing trend as NEUTRAL.
   */
  function KospiSignal(index: Json): (r: Outcome<Signal>)
    ensures r.Raised? ==> r.error == AttributeError || r.error == TypeError
  {
    var summary := KospiSummary(index);
    if summary.Raised? then Raised(summary.error)
    else
      var rsi := OrDefault(summary.value.rsi, JNum(50.0));
      var trend := OrDefault(summary.value.trend, JStr("NEUTRAL"));
      var above80 := PyGt(rsi, 80.0);
      if above80.Raised? then Raised(above80.error)
      else Done(SignalRule(above80.value, PyLt(rsi, 30.0).value, trend))
  }

  /** `is_bullish`: only the 'kospi' symbol is looked up; its trend must be exactly BULLISH. */
  function IsBullish(index: Json, symbol: string): (r: Outcome<bool>)
    ensures symbol != "kospi" ==> r == Done(false)
    ensures symbol == "kospi" && KospiSummary(index).Done? ==>
              r == Done(KospiSummary(index).value.trend == JStr("BULLISH"))
  {
    if symbol != "kospi" then Done(false)
    else
      var summary := KospiSummary(index);
      if summary.Raised? then Raised(summary.error)
      else Done(summary.value.trend == JStr("BULLISH"))
  }

  /** `is_overbought` as written: the RSI default never applies, so a missing RSI raises. */
  function IsOverboughtAsWritten(index: Json, symbol: string): (r: Outcome<bool>)
    ensures symbol != "kospi" ==> r == Done(false)
  {
    if symbol != "kospi" then Done(false)
    else
      var summary := KospiSummary(index);
      if summary.Raised? then Raised(summary.error)
      else PyGt(summary.value.rsi, 70.0)
  }

  /** `is_overbought` with a missing RSI read as 50. */
  function IsOverbought(index: Json, symbol: string): (r: Outcome<bool>)
    ensures symbol != "kospi" ==> r == Done(false)
    ensures symbol == "kospi" && KospiSummary(index).Raised? ==> r == Raised(AttributeError)
    ensures symbol == "kospi" && KospiSummary(index).Done? ==>
              var rsi := KospiSummary(index).value.rsi;
              (r.Done? <==> rsi == JNull || AsNumber(rsi).Some?)
              && (r.Done? ==> (r.value <==> AsNumber(rsi).Some? && Gt(AsNumber(rsi).value, Fin(70.0))))
  {
    if symbol != "kospi" then Done(false)
    else
      var summary := KospiSummary(index);
      if summary.Raised? then Raised(summary.error)
      else PyGt(OrDefault(summary.value.rsi, JNum(50.0)), 70.0)
  }

  // ---------------------------------------------------------------------
  // The status line
  // ---------------------------------------------------------------------

  /**
   * A segment of the status line, joined with " | ": the price and change
   * (number formatting is not modelled), or a value shown with `str`.
   */
  datatype Segment = Headline(price: Float, changePct: Float) | Shown(value: Json)

  /** Formatting with `,.0f` / `+.2f`: numbers only; a string raises ValueError, anything else TypeError. */
  function FormatNumber(j: Json): (r: Outcome<Float>)
    ensures r.Done? <==> AsNumber(j).Some?
    ensures r.Done? ==> r.value == AsNumber(j).value
  {
    var x := AsNumber(j);
    if x.Some? then Done(x.value)
    else if j.JStr? then Raised(ValueError)
    else Raised(TypeError)
  }

  /** Headline and trend, then the alert segment exactly when the alert is truthy. */
  function StatusSegments(price: Json, change: Json, trend: Json, alert: Json): (r: Outcome<seq<Segment>>)
    ensures r.Done? <==> AsNumber(price).Some? && AsNumber(change).Some?
    ensures r.Done? ==> |r.value| == (if Truthy(alert) then 3 else 2)
    ensures r.Done? ==> r.value[0] == Headline(AsNumber(price).value, AsNumber(change).value)
                        && r.value[1] == Shown(trend)
                        && (Truthy(alert) ==> r.value[2] == Shown(alert))
  {
    var p := FormatNumber(price);
    if p.Raised? then Raised(p.error)
    else
      var c := FormatNumber(change);
      if c.Raised? then Raised(c.error)
      else Done([Headline(p.value, c.value), Shown(trend)] + (if Truthy(alert) then [Shown(alert)] else []))
  }

  /**
   * `market_status` as written: none of its `.get` defaults applies, so a
   * missing price or change reaches the number format as None and raises.
   */
  function MarketStatusAsWritten(index: Json): (r: Outcome<seq<Segment>>)
    ensures KospiSummary(index).Raised? ==> r == Raised(AttributeError)
    ensures KospiSummary(index).Done? ==>
              (r.Done? <==> AsNumber(KospiSummary(index).value.price).Some?
                            && AsNumber(KospiSummary(index).value.changePct).Some?)
    ensures r.Done? ==> 2 <= |r.value| <= 3 && r.value[1] == Shown(KospiSummary(index).value.trend)
  {
    var summary := KospiSummary(index);
    if summary.Raised? then Raised(summary.error)
    else StatusSegments(summary.value.price, summary.value.changePct, summary.value.trend, summary.value.alert)
  }

  /** `market_status` with the defaults it evidently intends: price and change 0, trend NEUTRAL, alert ''. */
  function MarketStatus(index: Json): (r: Outcome<seq<Segment>>)
    ensures KospiSummary(index).Raised? ==> r == Raised(AttributeError)
    ensures r.Done? ==> 2 <= |r.value| <= 3
    ensures KospiSummary(index).Done? && KospiSummary(index).value.price == JNull
            && KospiSummary(index).value.changePct == JNull
            ==> r.Done? && r.value[0] == Headline(Fin(0.0), Fin(0.0))
    ensures r.Done? && KospiSummary(index).value.trend == JNull ==> r.value[1] == Shown(JStr("NEUTRAL"))
    ensures KospiSummary(index).Done? ==>
              var m := KospiSummary(index).value;
              (r.Done? <==> (m.price == JNull || AsNumber(m.price).Some?)
                            && (m.changePct == JNull || AsNumber(m.changePct).Some?))
              && (r.Done? && AsNumber(m.price).Some? && AsNumber(m.changePct).Some? ==>
                    r.value[0] == Headline(AsNumber(m.price).value, AsNumber(m.changePct).value))
              && (r.Done? && m.trend != JNull ==> r.value[1] == Shown(m.trend))
              && (r.Done? ==> (|r.value| == 3 <==> Truthy(m.alert)))
              && (r.Done? && Truthy(m.alert) ==> r.value[2] == Shown(m.alert))
  {
    var summary := KospiSummary(index);
    if summary.Raised? then Raised(summary.error)
    else StatusSegments(OrDefault(summary.value.price, JNum(0.0)), OrDefault(summary.value.changePct, JNum(0.0)),
                        OrDefault(summary.value.trend, JStr("NEUTRAL")), OrDefault(summary.value.alert, JStr("")))
  }

  // ---------------------------------------------------------------------
  // Individual stocks
  // ---------------------------------------------------------------------

  /** `stock_map.get(name.lower())` as written, with the key 'SK하이닉스' kept verbatim. */
  function StockFileAsWritten(name: string): (f: Option<string>)
    ensures f.Some? ==> f.value == "samsung.csv" || f.value == "skhynix.csv"
    ensures Lower(name) == "samsung" || Lower(name) == "삼성전자" ==> f == Some("samsung.csv")
    ensures Lower(name) == "skhynix" ==> f == Some("skhynix.csv")
  {
    var key := Lower(name);
    if key == "samsung" then Some("samsung.csv")
    else if key == "skhynix" then Some("skhynix.csv")
    else if key == "삼성전자" then Some("samsung.csv")
    else if key == "SK하이닉스" then Some("skhynix.csv")
    else None
  }

  /** The lookup with its Korean SK Hynix key lowered like the name it is compared with. */
  function StockFile(name: string): (f: Option<string>)
    ensures f.Some? ==> f.value == "samsung.csv" || f.value == "skhynix.csv"
    ensures Lower(name) == "samsung" || Lower(name) == "삼성전자" ==> f == Some("samsung.csv")
    ensures Lower(name) == "skhynix" || Lower(name) == "sk하이닉스" ==> f == Some("skhynix.csv")
  {
    var key := Lower(name);
    if key == "samsung" then Some("samsung.csv")
    else if key == "skhynix" then Some("skhynix.csv")
    else if key == "삼성전자" then Some("samsung.csv")
    else if key == "sk하이닉스" then Some("skhynix.csv")
    else None
  }

  /**
   * `stock`: None for an unknown name; otherwise the file read, where
   * `read` gives a file's parsed rows or None when reading fails.
   */
  function Stock(name: string, read: string -> Option<seq<Quote>>): (r: Option<seq<Quote>>)
    ensures StockFile(name).None? ==> r.None?
    ensures StockFile(name).Some? ==> r == read(StockFile(name).value)
  {
    var file := StockFile(name);
    if file.None? then None else read(file.value)
  }

  // ---------------------------------------------------------------------
  // The loader object
  // ---------------------------------------------------------------------

  class Loader {
    var index: Json
    var kospiCache: Option<seq<Quote>>
    var kosdaqCache: Option<seq<Quote>>

    /** `__init__`: loads the index; both histories start unloaded. */
    constructor (file: Option<Json>)
      ensures index == LoadIndex(file) && kospiCache.None? && kosdaqCache.None?
    {
      index := LoadIndex(file);
      kospiCache := None;
      kosdaqCache := None;
    }

    /**
     * `kospi(days)`: reads the history file only when nothing is cached (a
     * missing file then raises), and serves the last `days` rows of the
     * cache.  A loaded cache is never replaced, whatever the file holds now.
     */
    method Kospi(days: int, csv: Option<seq<Quote>>) returns (r: Outcome<seq<Quote>>)
      modifies this
      ensures index == old(index) && kosdaqCache == old(kosdaqCache)
      ensures old(kospiCache).Some? ==> kospiCache == old(kospiCache)
      ensures old(kospiCache).None? ==> kospiCache == csv
      ensures r.Raised? <==> kospiCache.None?
      ensures r.Raised? ==> r.error == FileNotFound
      ensures r.Done? ==> r.value == Tail(kospiCache.value, days)
    {
      if kospiCache.None? {
        if csv.None? {
          return Raised(FileNotFound);
        }
        kospiCache := csv;
      }
      r := Done(Tail(kospiCache.value, days));
    }

    /** `kosdaq(days)`: the same lifecycle over the KOSDAQ history. */
    method Kosdaq(days: int, csv: Option<seq<Quote>>) returns (r: Outcome<seq<Quote>>)
      modifies this
      ensures index == old(index) && kospiCache == old(kospiCache)
      ensures old(kosdaqCache).Some? ==> kosdaqCache == old(kosdaqCache)
      ensures old(kosdaqCache).None? ==> kosdaqCache == csv
      ensures r.Raised? <==> kosdaqCache.None?
      ensures r.Raised? ==> r.error == FileNotFound
      ensures r.Done? ==> r.value == Tail(kosdaqCache.value, days)
    {
      if kosdaqCache.None? {
        if csv.None? {
          return Raised(FileNotFound);
        }
        kosdaqCache := csv;
      }
      r := Done(Tail(kosdaqCache.value, days));
    }

    /** `refresh`: reloads the index and empties both caches. */
    method Refresh(file: Option<Json>)
      modifies this
      ensures index == LoadIndex(file) && kospiCache.None? && kosdaqCache.None?
    {
      index := LoadIndex(file);
      kospiCache := None;
      kosdaqCache := None;
    }
  }

  // ---------------------------------------------------------------------
  // Properties
  // ---------------------------------------------------------------------

  /**
   * Without an index file the loader's index is `{}`; the signal and the
   * status line as written then raise TypeError, while the corrected ones
   * give NEUTRAL and "KOSPI: 0 (+0.00%) | NEUTRAL".
   */
  lemma MissingIndexRaisesAsWritten()
    ensures KospiSignalAsWritten(LoadIndex(None)) == Raised(TypeError)
    ensures IsOverboughtAsWritten(LoadIndex(None), "kospi") == Raised(TypeError)
    ensures MarketStatusAsWritten(LoadIndex(None)) == Raised(TypeError)
    ensures KospiSignal(LoadIndex(None)) == Done(Watch)
    ensures IsOverbought(LoadIndex(None), "kospi") == Done(false)
    ensures MarketStatus(LoadIndex(None)) == Done([Headline(Fin(0.0), Fin(0.0)), Shown(JStr("NEUTRAL"))])
  {
    assert !Truthy(JStr(""));
    assert StatusSegments(JNum(0.0), JNum(0.0), JStr("NEUTRAL"), JStr("")).value
        == [Headline(Fin(0.0), Fin(0.0)), Shown(JStr("NEUTRAL"))];
  }

  /** Where the index holds a number for the RSI, the two signals agree. */
  lemma SignalCorrectionAgrees(index: Json)
    requires KospiSummary(index).Done? && AsNumber(KospiSummary(index).value.rsi).Some?
    requires KospiSummary(index).value.trend != JNull
    ensures KospiSignal(index) == KospiSignalAsWritten(index)
    ensures KospiSignal(index).Done?
  {
  }

  /** Wherever the RSI is a number, the corrected overbought test agrees with the source's. */
  lemma OverboughtCorrectionAgrees(index: Json, symbol: string)
    requires KospiSummary(index).Done? && AsNumber(KospiSummary(index).value.rsi).Some?
    ensures IsOverbought(index, symbol) == IsOverboughtAsWritten(index, symbol)
    ensures IsOverbought(index, symbol).Done?
  {
  }

  /** Wherever the price and change are numbers and the trend is set, the corrected status line is the source's. */
  lemma StatusCorrectionAgrees(index: Json)
    requires KospiSummary(index).Done?
    requires var m := KospiSummary(index).value;
             AsNumber(m.price).Some? && AsNumber(m.changePct).Some? && m.trend != JNull
    ensures MarketStatus(index) == MarketStatusAsWritten(index)
    ensures MarketStatus(index).Done?
  {
  }

  /** The corrected signal never raises TypeError on an index whose RSI is a number or absent. */
  lemma SignalTotalOnWellFormedIndex(index: Json)
    requires KospiSummary(index).Done?
    requires var rsi := KospiSummary(index).value.rsi; rsi == JNull || AsNumber(rsi).Some?
    ensures KospiSignal(index).Done?
  {
  }

  /** CAUTION and OPPORTUNITY need an extreme RSI; any other BULLISH index reads HOLD. */
  lemma SignalNeedsExtremeRsi(index: Json)
    requires KospiSignal(index).Done?
    ensures var s := KospiSummary(index).value;
            var rsi := AsNumber(OrDefault(s.rsi, JNum(50.0))).value;
            && (KospiSignal(index).value == Caution ==> Gt(rsi, Fin(80.0)))
            && (KospiSignal(index).value == Opportunity ==> Lt(rsi, Fin(30.0)))
            && (KospiSignal(index).value == HoldTrend <==> s.trend == JStr("BULLISH") && !Gt(rsi, Fin(80.0)))
  {
  }

  /** The status line has its alert segment exactly when the alert is non-empty. */
  lemma AlertSegmentIffAlert(index: Json)
    requires MarketStatus(index).Done?
    ensures var alert := OrDefault(KospiSummary(index).value.alert, JStr(""));
            |MarketStatus(index).value| == 3 <==> Truthy(alert)
  {
  }

  /** No name lowers to the mixed-case key, so the as-written map never serves 'SK하이닉스'. */
  lemma MixedCaseKeyUnreachable(name: string)
    ensures Lower(name) != "SK하이닉스"
  {
    var key := "SK하이닉스";
    assert IsUpper(key[0]);
    if |name| > 0 {
      assert !IsUpper(Lower(name)[0]);
    }
  }

  /** As written, 'SK하이닉스' finds no file; the corrected lookup finds skhynix.csv. */
  lemma KoreanSkHynixLookup()
    ensures StockFileAsWritten("SK하이닉스") == None
    ensures StockFile("SK하이닉스") == Some("skhynix.csv")
  {
    MixedCaseKeyUnreachable("SK하이닉스");
    assert Lower("SK하이닉스") == "sk하이닉스";
  }

  /** The two lookups differ only on names that lower to 'sk하이닉스'. */
  lemma StockLookupCorrectionAgrees(name: string)
    requires Lower(name) != "sk하이닉스"
    ensures StockFile(name) == StockFileAsWritten(name)
  {
    MixedCaseKeyUnreachable(name);
  }

  // ---------------------------------------------------------------------
  // Reading back what update_data.py writes
  // ---------------------------------------------------------------------

  /**
   * An index that `update_index` wrote reads back as the analysis: the
   * summary holds its price, change, trend name, RSI and alert.
   */
  lemma WrittenIndexSummary(file: Option<Json>, stamp: string, a: UpdateData.Analysis)
    requires UpdateData.Merged(file, stamp, a).Done?
    ensures KospiSummary(JObj(UpdateData.Merged(file, stamp, a).value))
         == Done(Summary(FloatJson(a.lastPrice), FloatJson(a.changePct), JStr(TrendName(a.trend)),
                         FloatJson(a.rsi), UpdateData.AlertJson(a.alert)))
  {
    UpdateData.MergeReplacesOnlyKospi(file, stamp, a);
  }

  /**
   * On such an index nothing raises, the as-written and corrected signals
   * agree, and the loader reports BULLISH and the signal exactly as the
   * analysis decided them.
   */
  lemma WrittenIndexSignals(file: Option<Json>, stamp: string, a: UpdateData.Analysis)
    requires UpdateData.Merged(file, stamp, a).Done?
    ensures var index := JObj(UpdateData.Merged(file, stamp, a).value);
            && IsBullish(index, "kospi") == Done(a.trend == Bullish)
            && KospiSignalAsWritten(index) == KospiSignal(index)
            && KospiSignal(index) == Done(SignalRule(Gt(a.rsi, Fin(80.0)), Lt(a.rsi, Fin(30.0)), JStr(TrendName(a.trend))))
            && IsOverboughtAsWritten(index, "kospi") == Done(Gt(a.rsi, Fin(70.0)))
            && MarketStatusAsWritten(index).Done?
            && (|MarketStatusAsWritten(index).value| == 3 <==> a.alert.Some?)
  {
    WrittenIndexSummary(file, stamp, a);
    AnalysisSummarySignals(JObj(UpdateData.Merged(file, stamp, a).value), a);
  }

  /** The signals of any index whose KOSPI summary is the one an analysis writes. */
  lemma AnalysisSummarySignals(index: Json, a: UpdateData.Analysis)
    requires KospiSummary(index) == Done(Summary(FloatJson(a.lastPrice), FloatJson(a.changePct), JStr(TrendName(a.trend)),
                                                 FloatJson(a.rsi), UpdateData.AlertJson(a.alert)))
    ensures IsBullish(index, "kospi") == Done(a.trend == Bullish)
    ensures KospiSignalAsWritten(index) == KospiSignal(index)
    ensures KospiSignal(index) == Done(SignalRule(Gt(a.rsi, Fin(80.0)), Lt(a.rsi, Fin(30.0)), JStr(TrendName(a.trend))))
    ensures IsOverboughtAsWritten(index, "kospi") == Done(Gt(a.rsi, Fin(70.0)))
    ensures MarketStatusAsWritten(index).Done?
    ensures |MarketStatusAsWritten(index).value| == 3 <==> a.alert.Some?
  {
    TrendNamesDistinct(a.trend, Bullish);
    var alertJson := UpdateData.AlertJson(a.alert);
    if a.alert.Some? {
      var text := UpdateData.AlertText(a.alert.value);
      assert |text| > 0 by { assert text[0] == 'R'; }
      assert Truthy(alertJson);
    }
  }
}
