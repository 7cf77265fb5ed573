// update_data.py: the daily KOSPI analysis (`analyze_kospi`) and the merge
// of its result into the market-data index (`update_index`).  Downloads,
// the CSV copy and the index file's read and write are I/O: the history
// and the decoded index come in as values, and the written index goes out
// as one.
module UpdateData {
  import opened Common
  import opened MarketData

  /** One row of the downloaded history, reduced to what the analysis reads. */
  datatype Bar = Bar(close: Float, volume: Float)

  /**
   * The downloaded history after the indicator columns were added: its
   * rows, and the last row's 20- and 60-day averages and 14-day RSI (NaN
   * while a window is not yet full).
   */
  datatype History = History(bars: seq<Bar>, ma20: Float, ma60: Float, rsi: Float)

  datatype Alert = Overbought80 | Overbought70 | Oversold20 | Oversold30

  function AlertText(a: Alert): string
  {
    match a
    case Overbought80 => "RSI 과매수 (80+)"
    case Overbought70 => "RSI 과매수 (70+)"
    case Oversold20 => "RSI 과매도 (20-)"
    case Oversold30 => "RSI 과매도 (30-)"
  }

  /**
   * The RSI alert, first match from the top: above 80, above 70, below 20,
   * below 30; no alert between 30 and 70 or for a NaN RSI.
   */
  function AlertOf(rsi: Float): (a: Option<Alert>)
    ensures a == Some(Overbought80) <==> Gt(rsi, Fin(80.0))
    ensures a == Some(Overbought70) <==> Gt(rsi, Fin(70.0)) && !Gt(rsi, Fin(80.0))
    ensures a == Some(Oversold20) <==> Lt(rsi, Fin(20.0))
    ensures a == Some(Oversold30) <==> Lt(rsi, Fin(30.0)) && !Lt(rsi, Fin(20.0))
    ensures a == None <==> rsi.NaN? || 30.0 <= rsi.v <= 70.0
  {
    if Gt(rsi, Fin(80.0)) then Some(Overbought80)
    else if Gt(rsi, Fin(70.0)) then Some(Overbought70)
    else if Lt(rsi, Fin(20.0)) then Some(Oversold20)
    else if Lt(rsi, Fin(30.0)) then Some(Oversold30)
    else None
  }

  /** Python `int(x)` on a finite float: truncation toward zero. */
  function Trunc(x: real): (n: int)
    ensures 0.0 <= x ==> n as real <= x < n as real + 1.0
    ensures x < 0.0 ==> n as real - 1.0 < x <= n as real
  {
    if x >= 0.0 then x.Floor else -((-x).Floor)
  }

  /** The analysis record `analyze_kospi` returns and writes out. */
  datatype Analysis = Analysis(date: string, lastPrice: Float, change: Float, changePct: Float,
                               volume: int, ma20: Float, ma60: Float, rsi: Float,
                               trend: Trend, alert: Option<Alert>)

  /** `{}` for no data, an exception, or the analysis. */
  datatype Analyzed = NoData | Failed(error: PyError) | Analyzed(analysis: Analysis)

  /**
   * `analyze_kospi`, up to the index update: `{}` for a missing or empty
   * frame; `df.iloc[-2]` raises on a one-row frame and `int(...)` on a NaN
   * volume; otherwise the trend and alert of the last row and its change
   * against the row before.  `date` is the timestamp it records.
   */
  function AnalyzeKospi(h: Option<History>, date: string): (r: Analyzed)
    ensures r == NoData <==> h.None? || |h.value.bars| == 0
    ensures r == Failed(IndexError) <==> h.Some? && |h.value.bars| == 1
    ensures r == Failed(ValueError) <==> h.Some? && |h.value.bars| >= 2 && h.value.bars[|h.value.bars| - 1].volume.NaN?
    ensures r.Analyzed? ==>
      var bars := h.value.bars;
      var latest, prev := bars[|bars| - 1], bars[|bars| - 2];
      && r.analysis.lastPrice == latest.close
      && r.analysis.trend == TrendOf(latest.close, h.value.ma20, h.value.ma60)
      && r.analysis.alert == AlertOf(h.value.rsi)
      && r.analysis.rsi == h.value.rsi
      && (r.analysis.change.Fin? <==> latest.close.Fin? && prev.close.Fin?)
      && (r.analysis.change.Fin? ==> latest.close.Fin? && prev.close.Fin?
                                     && latest.close.v == prev.close.v + r.analysis.change.v)
      && (r.analysis.changePct.Fin? <==> r.analysis.change.Fin? && prev.close.v != 0.0)
      && (r.analysis.changePct.Fin? ==> r.analysis.changePct.v * prev.close.v == r.analysis.change.v * 100.0)
      && r.analysis.ma20 == h.value.ma20 && r.analysis.ma60 == h.value.ma60
      && r.analysis.date == date
      && r.analysis.volume == Trunc(latest.volume.v)
  {
    if h.None? || |h.value.bars| == 0 then NoData
    else if |h.value.bars| == 1 then Failed(IndexError)
    else
      var bars := h.value.bars;
      var latest, prev := bars[|bars| - 1], bars[|bars| - 2];
      if latest.volume.NaN? then Failed(ValueError)
      else
        var change := Sub(latest.close, prev.close);
        Analyzed(Analysis(date, latest.close, change, Percent(change, prev.close),
                          Trunc(latest.volume.v), h.value.ma20, h.value.ma60, h.value.rsi,
                          TrendOf(latest.close, h.value.ma20, h.value.ma60), AlertOf(h.value.rsi)))
  }

  // ---------------------------------------------------------------------
  // The index merge
  // ---------------------------------------------------------------------

  function AlertJson(a: Option<Alert>): (j: Json)
    ensures a.None? <==> j == JNull
  {
    if a.None? then JNull else JStr(AlertText(a.value))
  }

  /** The KOSPI entry `update_index` writes under `indices`. */
  function KospiEntry(a: Analysis): map<string, Json>
  {
    map["symbol" := JStr("^KS11"), "name" := JStr("KOSPI"), "currency" := JStr("KRW"),
        "last_price" := FloatJson(a.lastPrice), "change_percent" := FloatJson(a.changePct),
        "trend" := JStr(TrendName(a.trend)), "rsi" := FloatJson(a.rsi),
        "ma20" := FloatJson(a.ma20), "ma60" := FloatJson(a.ma60), "alert" := AlertJson(a.alert)]
  }

  /** `_load`: the decoded index file, or `{}` when it is missing or unreadable. */
  function Loaded(file: Option<Json>): Json
  {
    if file.Some? then file.value else JObj(map[])
  }

  /**
   * The index `update_index` writes: the loaded object with `last_updated`
   * set to `stamp`, an `indices` object created when absent, and its
   * `kospi` entry replaced.  Item assignment on a loaded value, or on an
   * `indices` value, that is not an object raises TypeError.
   */
  function Merged(file: Option<Json>, stamp: string, a: Analysis): Outcome<map<string, Json>>
  {
    var index := Loaded(file);
    if !index.JObj? then Raised(TypeError)
    else
      var fields := index.fields["last_updated" := JStr(stamp)];
      var fields := if "indices" in fields then fields else fields["indices" := JObj(map[])];
      if !fields["indices"].JObj? then Raised(TypeError)
      else Done(fields["indices" := JObj(fields["indices"].fields["kospi" := JObj(KospiEntry(a))])])
  }

  /** `update_index`, changing the loaded dict in place step by step. */
  method UpdateIndex(file: Option<Json>, stamp: string, a: Analysis) returns (r: Outcome<map<string, Json>>)
    ensures r == Merged(file, stamp, a)
  {
    var index := if file.Some? then file.value else JObj(map[]);
    if !index.JObj? {
      return Raised(TypeError);
    }
    var fields := index.fields;
    fields := fields["last_updated" := JStr(stamp)];
    if "indices" !in fields {
      fields := fields["indices" := JObj(map[])];
    }
    var indices := fields["indices"];
    if !indices.JObj? {
      return Raised(TypeError);
    }
    fields := fields["indices" := JObj(indices.fields["kospi" := JObj(KospiEntry(a))])];
    r := Done(fields);
  }

  // ---------------------------------------------------------------------
  // Properties
  // ---------------------------------------------------------------------

  /**
   * The merge raises exactly when the loaded file is not an object, or
   * holds an `indices` value that is not one; a missing or unreadable file
   * always merges.
   */
  lemma MergeFailsOnlyOnNonObjects(file: Option<Json>, stamp: string, a: Analysis)
    ensures Merged(file, stamp, a).Raised? <==>
              file.Some? && (!file.value.JObj? || ("indices" in file.value.fields && !file.value.fields["indices"].JObj?))
    ensures file.None? ==> Merged(file, stamp, a).Done?
  {
  }

  /**
   * A successful merge keeps every key of the file, adds at most
   * `last_updated` and `indices`, and changes no value but those two.
   */
  lemma MergeKeepsOtherKeys(file: Option<Json>, stamp: string, a: Analysis)
    requires Merged(file, stamp, a).Done?
    ensures var out := Merged(file, stamp, a).value;
            && out.Keys == Loaded(file).fields.Keys + {"last_updated", "indices"}
            && out["last_updated"] == JStr(stamp)
            && (forall k :: k in Loaded(file).fields && k != "last_updated" && k != "indices" ==>
                              out[k] == Loaded(file).fields[k])
  {
  }

  /**
   * Under `indices`, the merge sets `kospi` to the analysis's entry and
   * keeps every other index as it was.
   */
  lemma MergeReplacesOnlyKospi(file: Option<Json>, stamp: string, a: Analysis)
    requires Merged(file, stamp, a).Done?
    ensures var out := Merged(file, stamp, a).value;
            var before := Get(Loaded(file).fields, "indices", JObj(map[]));
            && out["indices"].JObj?
            && out["indices"].fields.Keys == before.fields.Keys + {"kospi"}
            && out["indices"].fields["kospi"] == JObj(KospiEntry(a))
            && (forall k :: k in before.fields && k != "kospi" ==> out["indices"].fields[k] == before.fields[k])
  {
  }

  /** Merging the same analysis into the merged index changes nothing. */
  lemma MergeIdempotent(file: Option<Json>, stamp: string, a: Analysis)
    requires Merged(file, stamp, a).Done?
    ensures Merged(Some(JObj(Merged(file, stamp, a).value)), stamp, a) == Merged(file, stamp, a)
  {
    var out := Merged(file, stamp, a).value;
    var again := Merged(Some(JObj(out)), stamp, a);
    MergeKeepsOtherKeys(file, stamp, a);
    MergeReplacesOnlyKospi(file, stamp, a);
    assert out["last_updated" := JStr(stamp)] == out;
    var inner := out["indices"].fields;
    assert inner["kospi" := JObj(KospiEntry(a))] == inner;
    assert out["indices" := JObj(inner)] == out;
  }

  /** A NaN RSI (too short a history) gives no alert and no trend but NEUTRAL when an average is NaN. */
  lemma ShortHistoryQuiet(h: History, date: string)
    requires |h.bars| >= 2 && h.bars[|h.bars| - 1].volume.Fin?
    requires h.rsi.NaN? && h.ma60.NaN?
    ensures AnalyzeKospi(Some(h), date).Analyzed?
    ensures AnalyzeKospi(Some(h), date).analysis.alert.None?
    ensures AnalyzeKospi(Some(h), date).analysis.trend == Neutral
  {
  }

  /** How far an alert points away from the neutral band: oversold below zero, overbought above. */
  function Severity(a: Option<Alert>): (n: int)
    ensures -2 <= n <= 2 && (n == 0 <==> a.None?)
  {
    match a
    case None => 0
    case Some(Oversold20) => -2
    case Some(Oversold30) => -1
    case Some(Overbought70) => 1
    case Some(Overbought80) => 2
  }

  /** Over finite readings the alert ladder is monotone: a higher RSI never gives a more oversold alert. */
  lemma AlertSeverityMonotone(x: real, y: real)
    requires x <= y
    ensures Severity(AlertOf(Fin(x))) <= Severity(AlertOf(Fin(y)))
  {
  }
}
