// livermore_scanner.py: the Livermore new-high breakout scanner.  A stock
// within 2% of its 52-week high is scored on how close it is to the high,
// its volume against the 20-day average, a narrowing or widening of its
// Bollinger band and its trend; stocks reaching 60 points are kept and
// ranked by score.
module Livermore {
  import opened Common
  import opened Sorting
  import opened ScannerCommon

  datatype BreakoutSignal =
    | NewHigh | NearHigh
    | VolumeSpike2x | VolumeSpike15x | VolumeIncrease
    | Consolidation | BreakoutExpansion
    | BullishTrend

  function SignalText(s: BreakoutSignal): string
  {
    match s
    case NewHigh => "52W_HIGH_BREAKOUT"
    case NearHigh => "NEAR_52W_HIGH"
    case VolumeSpike2x => "VOLUME_SPIKE_2X"
    case VolumeSpike15x => "VOLUME_SPIKE_1.5X"
    case VolumeIncrease => "VOLUME_INCREASE"
    case Consolidation => "CONSOLIDATION"
    case BreakoutExpansion => "BREAKOUT_EXPANSION"
    case BullishTrend => "BULLISH_TREND"
  }

  datatype Trend = Bullish | Neutral

  /**
   * The downloaded history, reduced to what the scorer reads: the High
   * column (one entry per row), the last close and volume, the 20-day mean
   * volume, the last Bollinger width and its 20-day mean, and the last
   * 20- and 60-day averages.
   */
  datatype Frame = Frame(highs: seq<real>, close: real, volume: real, avgVolume20: real,
                         bbWidth: real, bbWidthAvg: real, ma20: real, ma60: real)

  /** `fetch_data`: None for a failed download, an empty frame or fewer than 60 rows. */
  function FetchData(download: Option<Frame>): (f: Option<Frame>)
    ensures f.Some? ==> download == f && |f.value.highs| >= 60
    ensures f.None? ==> download.None? || |download.value.highs| < 60
  {
    if download.None? || |download.value.highs| < 60 then None else download
  }

  function High(f: Frame): real
    requires |f.highs| > 0
  {
    High52Week(f.highs)
  }

  function Ratio(f: Frame): real { VolumeRatio(f.volume, f.avgVolume20) }

  predicate Compression(f: Frame) { f.bbWidth < f.bbWidthAvg * 0.9 }
  predicate Expansion(f: Frame) { f.bbWidth > f.bbWidthAvg * 1.1 }

  /** The close above the 20-day average, which is above the 60-day one. */
  predicate TrendBullish(f: Frame) { f.close > f.ma20 > f.ma60 }

  // ---------------------------------------------------------------------
  // Point bands
  // ---------------------------------------------------------------------

  function HighRung(price: real, high: real): (p: Part<BreakoutSignal>)
    ensures 0 <= p.score <= 40 && |p.signals| <= 1 && p.risks == []
  {
    if price >= high then Signal(40, NewHigh)
    else if price >= high * 0.99 then Signal(30, NearHigh)
    else Points(0)
  }

  function VolumeRung(ratio: real): (p: Part<BreakoutSignal>)
    ensures 0 <= p.score <= 30 && |p.signals| <= 1 && p.risks == []
  {
    if ratio >= 2.0 then Signal(30, VolumeSpike2x)
    else if ratio >= 1.5 then Signal(20, VolumeSpike15x)
    else if ratio >= 1.2 then Signal(10, VolumeIncrease)
    else Points(0)
  }

  /** The two band tests, each worth 10 and applied independently. */
  function BandRung(f: Frame): (p: Part<BreakoutSignal>)
    ensures 0 <= p.score <= 20 && |p.signals| <= 2 && p.risks == []
  {
    Then(if Compression(f) then Signal(10, Consolidation) else Points(0),
         if Expansion(f) then Signal(10, BreakoutExpansion) else Points(0))
  }

  function TrendRung(f: Frame): (p: Part<BreakoutSignal>)
    ensures 0 <= p.score <= 10 && |p.signals| <= 1 && p.risks == []
  {
    if TrendBullish(f) then Signal(10, BullishTrend) else Points(0)
  }

  function PriceVolumeBands(f: Frame): (p: Part<BreakoutSignal>)
    requires |f.highs| > 0
    ensures 0 <= p.score <= 70 && |p.signals| <= 2 && p.risks == []
  {
    Then(HighRung(f.close, High(f)), VolumeRung(Ratio(f)))
  }

  function ShapeBands(f: Frame): (p: Part<BreakoutSignal>)
    ensures 0 <= p.score <= 30 && |p.signals| <= 3 && p.risks == []
  {
    Then(BandRung(f), TrendRung(f))
  }

  /** The score and signals, in the order the bands are applied. */
  function Bands(f: Frame): (p: Part<BreakoutSignal>)
    requires |f.highs| > 0
    ensures 0 <= p.score <= 100 && |p.signals| <= 5 && p.risks == []
  {
    Then(PriceVolumeBands(f), ShapeBands(f))
  }

  // ---------------------------------------------------------------------
  // Analysis
  // ---------------------------------------------------------------------

  datatype BreakoutResult = BreakoutResult(symbol: string, name: string, high52w: real, volumeRatio: real,
                                           score: int, signals: seq<BreakoutSignal>, trend: Trend)

  function Score(r: BreakoutResult): int { r.score }

  /** The result record of a kept stock. */
  function ResultOf(f: Frame, symbol: string): (r: BreakoutResult)
    requires |f.highs| > 0
    ensures r.symbol == symbol && r.name == NameOr(KospiNames, symbol) && r.high52w == High(f)
    ensures r.score == Bands(f).score && r.signals == Bands(f).signals
    ensures r.trend == Bullish <==> TrendBullish(f)
  {
    BreakoutResult(symbol, NameOr(KospiNames, symbol), High(f), Ratio(f), Bands(f).score, Bands(f).signals,
                   if TrendBullish(f) then Bullish else Neutral)
  }

  /**
   * `analyze_breakout`: no result for a missing or short history, a close
   * below 98% of the 52-week high, or fewer than 60 points; otherwise the
   * scored result.
   */
  function AnalyzeBreakout(frame: Option<Frame>, symbol: string): (r: Option<BreakoutResult>)
    ensures r.Some? ==> frame.Some? && |frame.value.highs| >= 60 && frame.value.close >= High(frame.value) * 0.98
    ensures r.Some? ==> r.value == ResultOf(frame.value, symbol) && 60 <= r.value.score <= 100
  {
    if frame.None? || |frame.value.highs| < 60 then None
    else if frame.value.close < High(frame.value) * 0.98 then None
    else if Bands(frame.value).score < 60 then None
    else Some(ResultOf(frame.value, symbol))
  }

  function Analyze(download: string -> Option<Frame>): string -> Option<BreakoutResult>
  {
    symbol => AnalyzeBreakout(FetchData(download(symbol)), symbol)
  }

  class Scanner {
    var watchlist: seq<string>
    var results: seq<BreakoutResult>

    constructor ()
      ensures watchlist == KospiWatchlist && results == []
    {
      watchlist := KospiWatchlist;
      results := [];
    }

    /**
     * `scan`: every watchlist symbol analysed in order, the accepted results
     * sorted by score, highest first, and kept in `results`.
     */
    method Scan(download: string -> Option<Frame>) returns (found: seq<BreakoutResult>)
      modifies this`results
      ensures found == results == ByScore(Found(watchlist, Analyze(download)), Score)
    {
      var accepted: seq<BreakoutResult> := [];
      var i := 0;
      while i < |watchlist|
        invariant 0 <= i <= |watchlist|
        invariant accepted == Found(watchlist[..i], Analyze(download))
      {
        assert watchlist[..i + 1][..i] == watchlist[..i];
        var result := AnalyzeBreakout(FetchData(download(watchlist[i])), watchlist[i]);
        if result.Some? {
          accepted := accepted + [result.value];
        }
        i := i + 1;
      }
      assert watchlist[..|watchlist|] == watchlist;
      results := ByScore(accepted, Score);
      found := results;
    }
  }

  // ---------------------------------------------------------------------
  // Properties
  // ---------------------------------------------------------------------

  /** The new-high and volume bands are first-match ladders. */
  lemma BreakoutBands(price: real, high: real, ratio: real)
    ensures HighRung(price, high).score == 40 <==> price >= high
    ensures HighRung(price, high).score == 30 <==> high * 0.99 <= price < high
    ensures HighRung(price, high).score == 0 <==> price < high * 0.99 && price < high
    ensures VolumeRung(ratio).score == 30 <==> ratio >= 2.0
    ensures VolumeRung(ratio).score == 20 <==> 1.5 <= ratio < 2.0
    ensures VolumeRung(ratio).score == 10 <==> 1.2 <= ratio < 1.5
    ensures VolumeRung(ratio).score == 0 <==> ratio < 1.2
  {
  }

  /** The two band tests add 10 each and the trend 10, each with its signal. */
  lemma ShapeBandValues(f: Frame)
    ensures BandRung(f).score == 20 <==> Compression(f) && Expansion(f)
    ensures BandRung(f).score == 10 <==> Compression(f) != Expansion(f)
    ensures BandRung(f).score == 0 <==> !Compression(f) && !Expansion(f)
    ensures Consolidation in BandRung(f).signals <==> Compression(f)
    ensures BreakoutExpansion in BandRung(f).signals <==> Expansion(f)
    ensures TrendRung(f).score == 10 <==> TrendBullish(f)
    ensures TrendRung(f).score == 0 <==> !TrendBullish(f)
    ensures TrendRung(f).signals == (if TrendBullish(f) then [BullishTrend] else [])
  {
    var c: Part<BreakoutSignal> := if Compression(f) then Signal(10, Consolidation) else Points(0);
    var e: Part<BreakoutSignal> := if Expansion(f) then Signal(10, BreakoutExpansion) else Points(0);
    assert BandRung(f) == Then(c, e);
    assert BandRung(f).signals == c.signals + e.signals;
  }

  /** The score is the sum of the four ladders. */
  lemma BandsAreLadders(f: Frame)
    requires |f.highs| > 0
    ensures Bands(f).score == HighRung(f.close, High(f)).score + VolumeRung(Ratio(f)).score
                              + BandRung(f).score + TrendRung(f).score
  {
    var pv := PriceVolumeBands(f);
    var sh := ShapeBands(f);
    assert pv.score == HighRung(f.close, High(f)).score + VolumeRung(Ratio(f)).score;
    assert sh.score == BandRung(f).score + TrendRung(f).score;
    assert Bands(f) == Then(pv, sh);
  }

  /** A stock is kept exactly when its history is long, it is near its high, and it reaches 60 points. */
  lemma AcceptedExactly(frame: Option<Frame>, symbol: string)
    ensures AnalyzeBreakout(frame, symbol).Some? <==>
              frame.Some? && |frame.value.highs| >= 60 && frame.value.close >= High(frame.value) * 0.98
              && Bands(frame.value).score >= 60
  {
  }

  /** A close at or above the 52-week high is at or above every high of the last 252 rows. */
  lemma NewHighMeansAboveEveryHigh(f: Frame)
    requires |f.highs| > 0 && HighRung(f.close, High(f)).score == 40
    ensures forall k :: 0 <= k < |f.highs| && k >= |f.highs| - 252 ==> f.highs[k] <= f.close
  {
  }

  /**
   * A Bollinger width cannot be both narrower and wider than a non-negative
   * average, so with such an average the score is at most 90, and a kept
   * stock is within 1% of its high.
   */
  lemma BandsExclusive(f: Frame)
    requires |f.highs| > 0 && f.bbWidthAvg >= 0.0
    ensures !(Compression(f) && Expansion(f))
    ensures Bands(f).score <= 90
    ensures Bands(f).score >= 60 ==> f.close >= High(f) || f.close >= High(f) * 0.99
  {
    assert BandRung(f).score <= 10;
  }

  /** A kept result: between 60 and 100 points. */
  predicate WellScored(r: BreakoutResult)
  {
    60 <= r.score <= 100
  }

  /** Every scanned result was kept by the analysis, and the list is highest score first. */
  lemma ScanShape(symbols: seq<string>, download: string -> Option<Frame>)
    ensures var s := ByScore(Found(symbols, Analyze(download)), Score);
            |s| <= |symbols|
            && (forall r :: r in s ==> WellScored(r))
            && (forall i, j :: 0 <= i < j < |s| ==> s[i].score >= s[j].score)
  {
    var found := Found(symbols, Analyze(download));
    FoundExactly(symbols, Analyze(download));
    ByScoreShape(found, Score);
    forall r | r in found ensures WellScored(r) {
      var k :| 0 <= k < |symbols| && Analyze(download)(symbols[k]) == Some(r);
      var frame := FetchData(download(symbols[k]));
      assert r == ResultOf(frame.value, symbols[k]);
    }
    ByScoreKeeps(found, Score, WellScored);
  }
}
