// kosdaq_scanner.py: the three strategies run over one KOSDAQ watchlist.
// Each symbol's history is fetched once and scored by simplified Livermore
// (52-week high), O'Neil (volume spike) and Minervini (VCP) rules; each
// strategy keeps its own list of accepted stocks, sorted by score at the end.
module Kosdaq {
  import opened Common
  import opened Sorting
  import opened ScannerCommon

  datatype Strategy = LivermoreStrategy | OneilStrategy | MinerviniStrategy

  function StrategyText(s: Strategy): string
  {
    match s
    case LivermoreStrategy => "Livermore"
    case OneilStrategy => "O'Neil"
    case MinerviniStrategy => "Minervini VCP"
  }

  datatype KosdaqSignal =
    | NewHigh | NearHigh
    | VolumeSpike3x | VolumeSpike2x | VolumeSpike15x
    | BullishTrend
    | PriceSurge10 | PriceSurge5 | PriceGain3 | Breakout20
    | StrongVcp | VcpPattern | TightConsolidation | PriceCompression

  function SignalText(s: KosdaqSignal): string
  {
    match s
    case NewHigh => "52W_HIGH_BREAKOUT"
    case NearHigh => "NEAR_52W_HIGH"
    case VolumeSpike3x => "VOLUME_SPIKE_3X"
    case VolumeSpike2x => "VOLUME_SPIKE_2X"
    case VolumeSpike15x => "VOLUME_SPIKE_1.5X"
    case BullishTrend => "BULLISH_TREND"
    case PriceSurge10 => "PRICE_SURGE_10PCT"
    case PriceSurge5 => "PRICE_SURGE_5PCT"
    case PriceGain3 => "PRICE_GAIN_3PCT"
    case Breakout20 => "BREAKOUT_20DAY"
    case StrongVcp => "STRONG_VCP"
    case VcpPattern => "VCP_PATTERN"
    case TightConsolidation => "TIGHT_CONSOLIDATION"
    case PriceCompression => "PRICE_COMPRESSION"
  }

  /** The scanner's `watchlist`. */
  const KosdaqWatchlist: seq<string> := [
    "247540.KS", "086520.KS", "196170.KS", "352820.KS", "259960.KS",
    "161890.KS", "214150.KS", "263750.KS", "293490.KS", "112040.KS",
    "036830.KS", "122870.KS", "900140.KS", "950140.KS", "141080.KS",
    "195940.KS", "200130.KS", "215600.KS", "225190.KS", "240810.KS"
  ]

  /** The scanner's `name_map`. */
  const KosdaqNames: map<string, string> := map[
    "247540.KS" := "에코프로비엠", "086520.KS" := "에코프로",
    "196170.KS" := "알테오젠", "352820.KS" := "하이브",
    "259960.KS" := "크래프톤", "161890.KS" := "한국콜마",
    "214150.KS" := "클리시스", "263750.KS" := "펄어비스",
    "293490.KS" := "카카오게임즈", "112040.KS" := "위메이드",
    "036830.KS" := "솔브레인", "122870.KS" := "와이지엔터",
    "900140.KS" := "엘브이엠씨", "950140.KS" := "잉글우드랩",
    "141080.KS" := "레고켐바이오", "195940.KS" := "휴젤",
    "200130.KS" := "바이젠셀", "215600.KS" := "신라젬백화점",
    "225190.KS" := "삼양옵틱스", "240810.KS" := "원익IPS"
  ]

  /**
   * The downloaded history, reduced to what the three scorers read: the
   * High column (one entry per row), the last close and volume, the day's
   * percentage change (divided out without a guard), the 20- and 50-day
   * mean volume, the last 20- and 60-day averages, the 50-day average now
   * and 9 rows back (read only when it exists, from 59 rows on), the mean
   * ATR percentage of the first, middle and last 10 of the last 30 rows, and their high-low range in percent.
   */
  datatype Frame = Frame(highs: seq<real>, close: real, volume: real, priceChange: real,
                         avgVolume20: real, avgVolume50: real, ma20: real, ma60: real,
                         ma50: real, ma50Earlier: real, atr1: real, atr2: real, atr3: real,
                         consolidationRange: real)

  /** `fetch_data`: None for a failed download, an empty frame or fewer than 30 rows. */
  function FetchData(download: Option<Frame>): (f: Option<Frame>)
    ensures f.Some? ==> download == f && |f.value.highs| >= 30
    ensures f.None? ==> download.None? || |download.value.highs| < 30
  {
    if download.None? || |download.value.highs| < 30 then None else download
  }

  /** One accepted stock of one strategy; only the Minervini result carries a VCP stage. */
  datatype Pick = Pick(symbol: string, name: string, strategy: Strategy, score: int,
                       signals: seq<KosdaqSignal>, vcpStage: Option<int>)

  function Score(p: Pick): int { p.score }

  // ---------------------------------------------------------------------
  // Livermore
  // ---------------------------------------------------------------------

  /** `tail(252).max() if len(df) >= 252 else max()`. */
  function HighAsWritten(highs: seq<real>): real
    requires |highs| > 0
  {
    if |highs| >= 252 then MaxOf(Tail(highs, 252)) else MaxOf(highs)
  }

  function HighRung(close: real, high: real): (p: Part<KosdaqSignal>)
    ensures 0 <= p.score <= 40 && |p.signals| <= 1 && p.risks == []
  {
    if close >= high then Signal(40, NewHigh)
    else if close >= high * 0.99 then Signal(30, NearHigh)
    else Points(0)
  }

  function LivermoreVolumeRung(ratio: real): (p: Part<KosdaqSignal>)
    ensures 0 <= p.score <= 30 && |p.signals| <= 1 && p.risks == []
  {
    if ratio >= 2.0 then Signal(30, VolumeSpike2x)
    else if ratio >= 1.5 then Signal(20, VolumeSpike15x)
    else Points(0)
  }

  function TrendRung(f: Frame): (p: Part<KosdaqSignal>)
    ensures 0 <= p.score <= 10 && |p.signals| <= 1 && p.risks == []
  {
    if f.close > f.ma20 > f.ma60 then Signal(10, BullishTrend) else Points(0)
  }

  function LivermoreBands(f: Frame, high: real): (p: Part<KosdaqSignal>)
    ensures 0 <= p.score <= 80 && |p.signals| <= 3 && p.risks == []
  {
    Then(Then(HighRung(f.close, high), LivermoreVolumeRung(VolumeRatio(f.volume, f.avgVolume20))), TrendRung(f))
  }

  /**
   * `scan_livermore`: no pick for a missing history, fewer than 60 rows, a
   * close below 98% of the 52-week high, or fewer than 60 points.
   */
  function ScanLivermore(frame: Option<Frame>, symbol: string): (r: Option<Pick>)
    ensures r.Some? ==> frame.Some? && |frame.value.highs| >= 60
                        && frame.value.close >= HighAsWritten(frame.value.highs) * 0.98
    ensures r.Some? ==> r.value.symbol == symbol && r.value.name == NameOr(KosdaqNames, symbol)
                        && r.value.strategy == LivermoreStrategy && 60 <= r.value.score <= 80
                        && r.value.vcpStage == None
    ensures r.Some? ==> var bands := LivermoreBands(frame.value, HighAsWritten(frame.value.highs));
                        r.value.score == bands.score && r.value.signals == bands.signals
  {
    if frame.None? || |frame.value.highs| < 60 then None
    else
      var high := HighAsWritten(frame.value.highs);
      if frame.value.close < high * 0.98 then None
      else
        var bands := LivermoreBands(frame.value, high);
        if bands.score < 60 then None
        else Some(Pick(symbol, NameOr(KosdaqNames, symbol), LivermoreStrategy, bands.score, bands.signals, None))
  }

  // ---------------------------------------------------------------------
  // O'Neil
  // ---------------------------------------------------------------------

  function OneilVolumeRung(ratio: real): (p: Part<KosdaqSignal>)
    ensures 0 <= p.score <= 40 && |p.signals| <= 1 && p.risks == []
  {
    if ratio >= 3.0 then Signal(40, VolumeSpike3x)
    else if ratio >= 2.0 then Signal(35, VolumeSpike2x)
    else if ratio >= 1.5 then Signal(25, VolumeSpike15x)
    else Points(0)
  }

  function PriceRung(change: real): (p: Part<KosdaqSignal>)
    ensures 0 <= p.score <= 30 && |p.signals| <= 1 && p.risks == []
  {
    if change >= 10.0 then Signal(30, PriceSurge10)
    else if change >= 5.0 then Signal(25, PriceSurge5)
    else if change >= 3.0 then Signal(15, PriceGain3)
    else Points(0)
  }

  /** The close within 2% of the 20-day high. */
  predicate Breakout20Day(f: Frame)
    requires |f.highs| > 0
  {
    f.close >= MaxOf(Tail(f.highs, 20)) * 0.98
  }

  function BreakoutRung(f: Frame): (p: Part<KosdaqSignal>)
    requires |f.highs| > 0
    ensures 0 <= p.score <= 15 && |p.signals| <= 1 && p.risks == []
  {
    if Breakout20Day(f) then Signal(15, Breakout20) else Points(0)
  }

  function OneilBands(f: Frame): (p: Part<KosdaqSignal>)
    requires |f.highs| > 0
    ensures 0 <= p.score <= 85 && |p.signals| <= 3 && p.risks == []
  {
    Then(Then(OneilVolumeRung(VolumeRatio(f.volume, f.avgVolume50)), PriceRung(f.priceChange)), BreakoutRung(f))
  }

  /**
   * `scan_oneil`: no pick for a missing history, fewer than 50 rows, a day
   * that did not rise, volume below 1.5 times the 50-day average, or fewer
   * than 50 points.
   */
  function ScanOneil(frame: Option<Frame>, symbol: string): (r: Option<Pick>)
    ensures r.Some? ==> frame.Some? && |frame.value.highs| >= 50 && frame.value.priceChange > 0.0
                        && VolumeRatio(frame.value.volume, frame.value.avgVolume50) >= 1.5
    ensures r.Some? ==> r.value.symbol == symbol && r.value.name == NameOr(KosdaqNames, symbol)
                        && r.value.strategy == OneilStrategy && 50 <= r.value.score <= 85
                        && r.value.vcpStage == None
    ensures r.Some? ==> r.value.score == OneilBands(frame.value).score
                        && r.value.signals == OneilBands(frame.value).signals
  {
    if frame.None? || |frame.value.highs| < 50 || frame.value.priceChange <= 0.0 then None
    else if VolumeRatio(frame.value.volume, frame.value.avgVolume50) < 1.5 then None
    else
      var bands := OneilBands(frame.value);
      if bands.score < 50 then None
      else Some(Pick(symbol, NameOr(KosdaqNames, symbol), OneilStrategy, bands.score, bands.signals, None))
  }

  // ---------------------------------------------------------------------
  // Minervini
  // ---------------------------------------------------------------------

  predicate VolatilityContraction(f: Frame) { f.atr1 > f.atr2 > f.atr3 && f.atr3 < f.atr1 * 0.7 }

  function VcpRung(f: Frame): (p: Part<KosdaqSignal>)
    ensures 0 <= p.score <= 30 && |p.signals| <= 1 && p.risks == []
  {
    if VolatilityContraction(f) && f.atr3 < f.atr1 * 0.5 then Signal(30, StrongVcp)
    else if VolatilityContraction(f) then Signal(25, VcpPattern)
    else Points(0)
  }

  function RangeRung(range: real): (p: Part<KosdaqSignal>)
    ensures 0 <= p.score <= 20 && |p.signals| <= 1 && p.risks == []
  {
    if range < 10.0 then Signal(20, TightConsolidation)
    else if range < 15.0 then Signal(15, PriceCompression)
    else Points(0)
  }

  function MinerviniBands(f: Frame): (p: Part<KosdaqSignal>)
    ensures 0 <= p.score <= 50 && |p.signals| <= 2 && p.risks == []
  {
    Then(VcpRung(f), RangeRung(f.consolidationRange))
  }

  function KosdaqStage(f: Frame): int
  {
    if VolatilityContraction(f) && f.atr3 < f.atr1 * 0.5 then 3
    else if VolatilityContraction(f) then 2
    else 0
  }

  /**
   * `scan_minervini`: no pick for a missing history, fewer than 50 rows, a
   * close not above a rising 50-day average (which needs 59 rows), neither contraction nor a range
   * within 15%, or fewer than 50 points.
   */
  function ScanMinervini(frame: Option<Frame>, symbol: string): (r: Option<Pick>)
    ensures r.Some? ==> frame.Some? && |frame.value.highs| >= 59
                        && frame.value.close > frame.value.ma50 > frame.value.ma50Earlier
    ensures r.Some? ==> r.value.symbol == symbol && r.value.name == NameOr(KosdaqNames, symbol)
                        && r.value.strategy == MinerviniStrategy
                        && r.value.score == MinerviniBands(frame.value).score
                        && r.value.signals == MinerviniBands(frame.value).signals
                        && r.value.vcpStage == Some(KosdaqStage(frame.value))
  {
    if frame.None? || |frame.value.highs| < 50 then None
    else
      var f := frame.value;
      // The average 9 rows back is NaN below 59 rows, and compares false.
      if !(f.close > f.ma50 && |f.highs| >= 59 && f.ma50 > f.ma50Earlier) then None
      else if !VolatilityContraction(f) && f.consolidationRange > 15.0 then None
      else
        var bands := MinerviniBands(f);
        if bands.score < 50 then None
        else Some(Pick(symbol, NameOr(KosdaqNames, symbol), MinerviniStrategy, bands.score, bands.signals,
                       Some(KosdaqStage(f))))
  }

  // ---------------------------------------------------------------------
  // The scanner
  // ---------------------------------------------------------------------

  /** One strategy's analysis of a watchlist symbol; a symbol without data gets no pick. */
  function AnalyzeSymbol(strategy: Strategy, download: string -> Option<Frame>, symbol: string): Option<Pick>
  {
    var frame := FetchData(download(symbol));
    match strategy
    case LivermoreStrategy => ScanLivermore(frame, symbol)
    case OneilStrategy => ScanOneil(frame, symbol)
    case MinerviniStrategy => ScanMinervini(frame, symbol)
  }

  function Analyze(strategy: Strategy, download: string -> Option<Frame>): string -> Option<Pick>
  {
    symbol => AnalyzeSymbol(strategy, download, symbol)
  }

  /** The three strategies' picks of one scan. */
  datatype PickLists = PickLists(livermore: seq<Pick>, oneil: seq<Pick>, minervini: seq<Pick>)

  /** The `scan_all` loop: each symbol's picks appended to the three lists in watchlist order. */
  function Picks(symbols: seq<string>, download: string -> Option<Frame>): PickLists
  {
    if symbols == [] then PickLists([], [], [])
    else
      var before := Picks(symbols[..|symbols| - 1], download);
      var symbol := symbols[|symbols| - 1];
      PickLists(before.livermore + AsList(AnalyzeSymbol(LivermoreStrategy, download, symbol)),
                before.oneil + AsList(AnalyzeSymbol(OneilStrategy, download, symbol)),
                before.minervini + AsList(AnalyzeSymbol(MinerviniStrategy, download, symbol)))
  }

  /** Each list of the scan is that strategy's accepted results in watchlist order. */
  lemma {:induction false} PicksAreFound(symbols: seq<string>, download: string -> Option<Frame>)
    ensures Picks(symbols, download).livermore == Found(symbols, Analyze(LivermoreStrategy, download))
    ensures Picks(symbols, download).oneil == Found(symbols, Analyze(OneilStrategy, download))
    ensures Picks(symbols, download).minervini == Found(symbols, Analyze(MinerviniStrategy, download))
  {
    if symbols != [] {
      PicksAreFound(symbols[..|symbols| - 1], download);
    }
  }

  /**
   * One pass of the `scan_all` loop: the symbol's history fetched once and,
   * when there is one, scored by each strategy.
   */
  method ScanSymbol(download: string -> Option<Frame>, symbol: string)
    returns (livermore: Option<Pick>, oneil: Option<Pick>, minervini: Option<Pick>)
    ensures livermore == AnalyzeSymbol(LivermoreStrategy, download, symbol)
    ensures oneil == AnalyzeSymbol(OneilStrategy, download, symbol)
    ensures minervini == AnalyzeSymbol(MinerviniStrategy, download, symbol)
  {
    var frame := FetchData(download(symbol));
    if frame.None? {
      return None, None, None;
    }
    livermore := ScanLivermore(frame, symbol);
    oneil := ScanOneil(frame, symbol);
    minervini := ScanMinervini(frame, symbol);
  }

  class Scanner {
    var watchlist: seq<string>
    var names: map<string, string>
    var livermore: seq<Pick>
    var oneil: seq<Pick>
    var minervini: seq<Pick>

    constructor ()
      ensures watchlist == KosdaqWatchlist && names == KosdaqNames
      ensures livermore == [] && oneil == [] && minervini == []
    {
      watchlist := KosdaqWatchlist;
      names := KosdaqNames;
      livermore := [];
      oneil := [];
      minervini := [];
    }

    /**
     * `scan_all`: every watchlist symbol with data scored by the three
     * strategies in turn, each pick appended to its strategy's list, and
     * every list then sorted by score, highest first.  The lists are not
     * cleared first, so a second scan adds to the first one's picks.
     */
    method ScanAll(download: string -> Option<Frame>)
      modifies this`livermore, this`oneil, this`minervini
      ensures livermore == ByScore(old(livermore) + Picks(watchlist, download).livermore, Score)
      ensures oneil == ByScore(old(oneil) + Picks(watchlist, download).oneil, Score)
      ensures minervini == ByScore(old(minervini) + Picks(watchlist, download).minervini, Score)
    {
      var picks := ScanWatchlist(download, watchlist);
      livermore := ByScore(livermore + picks.livermore, Score);
      oneil := ByScore(oneil + picks.oneil, Score);
      minervini := ByScore(minervini + picks.minervini, Score);
    }
  }

  /** The loop of `scan_all`: the three strategies' picks, in watchlist order. */
  method ScanWatchlist(download: string -> Option<Frame>, symbols: seq<string>) returns (picks: PickLists)
    ensures picks == Picks(symbols, download)
  {
    var lv, on, mv := [], [], [];
    var i := 0;
    while i < |symbols|
      invariant 0 <= i <= |symbols|
      invariant Picks(symbols[..i], download) == PickLists(lv, on, mv)
    {
      assert symbols[..i + 1][..i] == symbols[..i];
      var l, o, m := ScanSymbol(download, symbols[i]);
      lv := lv + AsList(l);
      on := on + AsList(o);
      mv := mv + AsList(m);
      i := i + 1;
    }
    assert symbols[..|symbols|] == symbols;
    picks := PickLists(lv, on, mv);
  }

  // ---------------------------------------------------------------------
  // Properties
  // ---------------------------------------------------------------------

  /** The two-way 52-week high is the high of the last 252 rows either way. */
  lemma HighAsWrittenIsWindowHigh(highs: seq<real>)
    requires |highs| > 0
    ensures HighAsWritten(highs) == High52Week(highs)
  {
    if |highs| < 252 {
      assert Tail(highs, 252) == highs;
    }
  }

  /** The simplified Livermore score reaches 60 only at or within 1% of the high. */
  lemma LivermoreNeedsNearHigh(f: Frame, high: real)
    requires LivermoreBands(f, high).score >= 60
    ensures f.close >= high || f.close >= high * 0.99
  {
  }

  /** The Livermore ladders, first match: high 40/30/0, volume 30/20/0 and trend 10/0, summed. */
  lemma LivermoreBandValues(f: Frame, high: real)
    ensures HighRung(f.close, high).score == 40 <==> f.close >= high
    ensures HighRung(f.close, high).score == 30 <==> high * 0.99 <= f.close < high
    ensures HighRung(f.close, high).score == 0 <==> f.close < high * 0.99 && f.close < high
    ensures LivermoreVolumeRung(VolumeRatio(f.volume, f.avgVolume20)).score == 30
            <==> VolumeRatio(f.volume, f.avgVolume20) >= 2.0
    ensures LivermoreVolumeRung(VolumeRatio(f.volume, f.avgVolume20)).score == 20
            <==> 1.5 <= VolumeRatio(f.volume, f.avgVolume20) < 2.0
    ensures LivermoreVolumeRung(VolumeRatio(f.volume, f.avgVolume20)).score == 0
            <==> VolumeRatio(f.volume, f.avgVolume20) < 1.5
    ensures TrendRung(f).score == 10 <==> f.close > f.ma20 > f.ma60
    ensures TrendRung(f).score == 0 <==> !(f.close > f.ma20 > f.ma60)
    ensures LivermoreBands(f, high).score == HighRung(f.close, high).score
                                             + LivermoreVolumeRung(VolumeRatio(f.volume, f.avgVolume20)).score
                                             + TrendRung(f).score
  {
  }

  /** The Minervini ladders, first match: volatility 30/25/0 and range 20/15/0, summed. */
  lemma MinerviniBandValues(f: Frame)
    ensures VcpRung(f).score == 30 <==> VolatilityContraction(f) && f.atr3 < f.atr1 * 0.5
    ensures VcpRung(f).score == 25 <==> VolatilityContraction(f) && !(f.atr3 < f.atr1 * 0.5)
    ensures VcpRung(f).score == 0 <==> !VolatilityContraction(f)
    ensures RangeRung(f.consolidationRange).score == 20 <==> f.consolidationRange < 10.0
    ensures RangeRung(f.consolidationRange).score == 15 <==> 10.0 <= f.consolidationRange < 15.0
    ensures RangeRung(f.consolidationRange).score == 0 <==> f.consolidationRange >= 15.0
    ensures MinerviniBands(f).score == VcpRung(f).score + RangeRung(f.consolidationRange).score
  {
  }

  /** The O'Neil volume and price ladders, first match: 40/35/25/0 and 30/25/15/0. */
  lemma OneilBandValues(ratio: real, change: real)
    ensures OneilVolumeRung(ratio).score == 40 <==> ratio >= 3.0
    ensures OneilVolumeRung(ratio).score == 35 <==> 2.0 <= ratio < 3.0
    ensures OneilVolumeRung(ratio).score == 25 <==> 1.5 <= ratio < 2.0
    ensures OneilVolumeRung(ratio).score == 0 <==> ratio < 1.5
    ensures PriceRung(change).score == 30 <==> change >= 10.0
    ensures PriceRung(change).score == 25 <==> 5.0 <= change < 10.0
    ensures PriceRung(change).score == 15 <==> 3.0 <= change < 5.0
    ensures PriceRung(change).score == 0 <==> change < 3.0
  {
  }

  /** The 20-day breakout adds 15, and the O'Neil score is the sum of the three ladders. */
  lemma OneilBandsAreLadders(f: Frame)
    requires |f.highs| > 0
    ensures BreakoutRung(f).score == 15 <==> Breakout20Day(f)
    ensures BreakoutRung(f).score == 0 <==> !Breakout20Day(f)
    ensures OneilBands(f).score == OneilVolumeRung(VolumeRatio(f.volume, f.avgVolume50)).score
                                   + PriceRung(f.priceChange).score + BreakoutRung(f).score
  {
  }

  /**
   * The simplified Minervini score is at most 50, so every pick has
   * exactly 50 points, a strong VCP at stage 3 and a range under 10%.
   */
  lemma MinerviniPicksScoreFifty(frame: Option<Frame>, symbol: string)
    requires ScanMinervini(frame, symbol).Some?
    ensures var r := ScanMinervini(frame, symbol).value;
            r.score == 50 && r.vcpStage == Some(3) && r.signals == [StrongVcp, TightConsolidation]
            && frame.value.consolidationRange < 10.0
  {
  }

  /** Each strategy accepts exactly under its gates. */
  lemma AcceptedExactly(frame: Option<Frame>, symbol: string)
    ensures ScanLivermore(frame, symbol).Some? <==>
              frame.Some? && |frame.value.highs| >= 60
              && frame.value.close >= HighAsWritten(frame.value.highs) * 0.98
              && LivermoreBands(frame.value, HighAsWritten(frame.value.highs)).score >= 60
    ensures ScanOneil(frame, symbol).Some? <==>
              frame.Some? && |frame.value.highs| >= 50 && frame.value.priceChange > 0.0
              && VolumeRatio(frame.value.volume, frame.value.avgVolume50) >= 1.5
              && OneilBands(frame.value).score >= 50
    ensures ScanMinervini(frame, symbol).Some? <==>
              frame.Some? && |frame.value.highs| >= 59
              && frame.value.close > frame.value.ma50 > frame.value.ma50Earlier
              && (VolatilityContraction(frame.value) || frame.value.consolidationRange <= 15.0)
              && MinerviniBands(frame.value).score >= 50
  {
  }

  /** A history of 50 to 58 rows gets no Minervini pick: its earlier 50-day average is NaN. */
  lemma ShortHistoryNoMinervini(frame: Option<Frame>, symbol: string)
    requires frame.Some? && |frame.value.highs| < 59
    ensures ScanMinervini(frame, symbol).None?
  {
  }

  /** A symbol whose download fails or is too short gets no pick from any strategy. */
  lemma NoDataNoPicks(download: string -> Option<Frame>, symbol: string)
    requires FetchData(download(symbol)).None?
    ensures Analyze(LivermoreStrategy, download)(symbol).None?
    ensures Analyze(OneilStrategy, download)(symbol).None?
    ensures Analyze(MinerviniStrategy, download)(symbol).None?
  {
  }

  /** A pick accepted by the named strategy, with that strategy's score bounds. */
  predicate PickOf(strategy: Strategy, p: Pick)
  {
    p.strategy == strategy
    && match strategy
       case LivermoreStrategy => 60 <= p.score <= 80
       case OneilStrategy => 50 <= p.score <= 85
       case MinerviniStrategy => p.score == 50
  }

  /**
   * Each strategy's new picks carry that strategy and its score range, at
   * most one per symbol, and the sorted list is highest score first.
   */
  lemma ScanAllShape(strategy: Strategy, symbols: seq<string>, download: string -> Option<Frame>)
    ensures var found := Found(symbols, Analyze(strategy, download));
            |found| <= |symbols| && forall p :: p in found ==> PickOf(strategy, p)
    ensures forall earlier: seq<Pick> {:trigger ByScore(earlier + Found(symbols, Analyze(strategy, download)), Score)} ::
              var s := ByScore(earlier + Found(symbols, Analyze(strategy, download)), Score);
              forall i, j :: 0 <= i < j < |s| ==> s[i].score >= s[j].score
  {
    var found := Found(symbols, Analyze(strategy, download));
    FoundExactly(symbols, Analyze(strategy, download));
    forall p | p in found ensures PickOf(strategy, p) {
      var k :| 0 <= k < |symbols| && Analyze(strategy, download)(symbols[k]) == Some(p);
      var frame := FetchData(download(symbols[k]));
      if strategy == MinerviniStrategy {
        MinerviniPicksScoreFifty(frame, symbols[k]);
      }
    }
    forall earlier: seq<Pick> {
      ByScoreShape(earlier + found, Score);
    }
  }
}
