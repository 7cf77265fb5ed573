// oneil_scanner.py: the O'Neil volume-spike scanner.  A stock rising on the
// day is scored on its volume against the 50-day average, its daily gain,
// a 20- or 50-day breakout, accumulation and relative strength; stocks
// reaching 50 points are kept, classified by pattern and ranked by score.
module Oneil {
  import opened Common
  import opened Sorting
  import opened ScannerCommon

  /** The signals `analyze_volume_pattern` appends, in its order. */
  datatype OneilSignal =
    | VolumeSpike3x | VolumeSpike2x | VolumeSpike15x
    | PriceSurge10 | PriceSurge5 | PriceGain3
    | Breakout50 | Breakout20
    | InstitutionalAccum
    | StrongRs

  function SignalText(s: OneilSignal): string
  {
    match s
    case VolumeSpike3x => "VOLUME_SPIKE_3X"
    case VolumeSpike2x => "VOLUME_SPIKE_2X"
    case VolumeSpike15x => "VOLUME_SPIKE_1.5X"
    case PriceSurge10 => "PRICE_SURGE_10PCT"
    case PriceSurge5 => "PRICE_SURGE_5PCT"
    case PriceGain3 => "PRICE_GAIN_3PCT"
    case Breakout50 => "BREAKOUT_50DAY"
    case Breakout20 => "BREAKOUT_20DAY"
    case InstitutionalAccum => "INSTITUTIONAL_ACCUM"
    case StrongRs => "STRONG_RS"
  }

  datatype Pattern = StrongBreakout | VolumeExplosion | AccumulationPhase | RelativeStrength | VolumeIncrease

  /**
   * The downloaded history, reduced to what the scorer reads: its number of
   * rows, the last close and volume, the day's percentage change (divided
   * out without a guard), the 20- and 50-day mean volume, highest high and
   * moving average, the mean volume on up and on down days, and the 20-day
   * changes of the stock and of KOSPI (None when the KOSPI download fails).
   */
  datatype Frame = Frame(days: nat, close: real, volume: real, priceChange: real,
                         avgVolume50: real, avgVolume20: real, high20: real, high50: real,
                         upVolume: real, downVolume: real, ma20: real, ma50: real,
                         relative: Option<(real, real)>)

  /** `fetch_data`: None for a failed download, an empty frame or fewer than 50 rows. */
  function FetchData(download: Option<Frame>): (f: Option<Frame>)
    ensures f.Some? ==> download == f && f.value.days >= 50
    ensures f.None? ==> download.None? || download.value.days < 50
  {
    if download.None? || download.value.days < 50 then None else download
  }

  function VolumeRatio50(f: Frame): real { VolumeRatio(f.volume, f.avgVolume50) }
  function VolumeRatio20(f: Frame): real { VolumeRatio(f.volume, f.avgVolume20) }

  predicate Breakout20Day(f: Frame) { f.close >= f.high20 * 0.98 }
  predicate Breakout50Day(f: Frame) { f.close >= f.high50 * 0.98 }

  /** `up_days / down_days if down_days > 0 else 1`. */
  function AccumulationRatio(f: Frame): real
  {
    if f.downVolume > 0.0 then f.upVolume / f.downVolume else 1.0
  }

  predicate Accumulation(f: Frame) { AccumulationRatio(f) > 1.2 }

  /** `stock_change_20 / kospi_change if kospi_change != 0 else 0`, and 0 when KOSPI is unavailable. */
  function RsRatio(f: Frame): real
  {
    match f.relative
    case None => 0.0
    case Some((stock, kospi)) => if kospi != 0.0 then stock / kospi else 0.0
  }

  predicate StrongRelative(f: Frame) { f.relative.Some? && RsRatio(f) > 1.2 }

  // ---------------------------------------------------------------------
  // Point bands
  // ---------------------------------------------------------------------

  function VolumeRung(ratio: real): (p: Part<OneilSignal>)
    ensures 0 <= p.score <= 40 && |p.signals| <= 1 && p.risks == []
  {
    if ratio >= 3.0 then Signal(40, VolumeSpike3x)
    else if ratio >= 2.0 then Signal(35, VolumeSpike2x)
    else if ratio >= 1.5 then Signal(25, VolumeSpike15x)
    else Points(0)
  }

  function PriceRung(change: real): (p: Part<OneilSignal>)
    ensures 0 <= p.score <= 30 && |p.signals| <= 1 && p.risks == []
  {
    if change >= 10.0 then Signal(30, PriceSurge10)
    else if change >= 5.0 then Signal(25, PriceSurge5)
    else if change >= 3.0 then Signal(15, PriceGain3)
    else Points(0)
  }

  function BreakoutRung(f: Frame): (p: Part<OneilSignal>)
    ensures 0 <= p.score <= 15 && |p.signals| <= 1 && p.risks == []
  {
    if Breakout50Day(f) then Signal(15, Breakout50)
    else if Breakout20Day(f) then Signal(10, Breakout20)
    else Points(0)
  }

  function AccumulationRung(f: Frame): (p: Part<OneilSignal>)
    ensures 0 <= p.score <= 10 && |p.signals| <= 1 && p.risks == []
  {
    if Accumulation(f) then Signal(10, InstitutionalAccum) else Points(0)
  }

  function RsRung(f: Frame): (p: Part<OneilSignal>)
    ensures 0 <= p.score <= 5 && |p.signals| <= 1 && p.risks == []
  {
    if StrongRelative(f) then Signal(5, StrongRs) else Points(0)
  }

  /** Volume and price: the two core bands. */
  function CoreBands(f: Frame): (p: Part<OneilSignal>)
    ensures 0 <= p.score <= 70 && |p.signals| <= 2 && p.risks == []
  {
    Then(VolumeRung(VolumeRatio50(f)), PriceRung(f.priceChange))
  }

  /** Breakout, accumulation and relative strength. */
  function ConfirmingBands(f: Frame): (p: Part<OneilSignal>)
    ensures 0 <= p.score <= 30 && |p.signals| <= 3 && p.risks == []
  {
    Then(Then(BreakoutRung(f), AccumulationRung(f)), RsRung(f))
  }

  /** The score and signals, in the order the bands are applied. */
  function Bands(f: Frame): (p: Part<OneilSignal>)
    ensures 0 <= p.score <= 100 && |p.signals| <= 5 && p.risks == []
  {
    Then(CoreBands(f), ConfirmingBands(f))
  }

  // ---------------------------------------------------------------------
  // Pattern
  // ---------------------------------------------------------------------

  /**
   * `_classify_pattern` as written: the volume-explosion patterns test for
   * PRICE_SURGE_5PCT only, which the price band never emits together with
   * PRICE_SURGE_10PCT.
   */
  function ClassifyPatternAsWritten(signals: seq<OneilSignal>): (p: Pattern)
    ensures p == StrongBreakout <==> VolumeSpike3x in signals && PriceSurge5 in signals && Breakout50 in signals
    ensures p == VolumeExplosion <==> VolumeSpike3x in signals && PriceSurge5 in signals && Breakout50 !in signals
  {
    if VolumeSpike3x in signals && PriceSurge5 in signals then
      (if Breakout50 in signals then StrongBreakout else VolumeExplosion)
    else if VolumeSpike2x in signals && InstitutionalAccum in signals then AccumulationPhase
    else if VolumeSpike15x in signals && StrongRs in signals then RelativeStrength
    else VolumeIncrease
  }

  /** A surge of 5% or more, as either band records it. */
  predicate Surged(signals: seq<OneilSignal>)
  {
    PriceSurge5 in signals || PriceSurge10 in signals
  }

  /** `_classify_pattern` with a 10% surge counted as a surge of at least 5%. */
  function ClassifyPattern(signals: seq<OneilSignal>): (p: Pattern)
    ensures PriceSurge10 !in signals ==> p == ClassifyPatternAsWritten(signals)
    ensures p == StrongBreakout <==> VolumeSpike3x in signals && Surged(signals) && Breakout50 in signals
  {
    if VolumeSpike3x in signals && Surged(signals) then
      (if Breakout50 in signals then StrongBreakout else VolumeExplosion)
    else if VolumeSpike2x in signals && InstitutionalAccum in signals then AccumulationPhase
    else if VolumeSpike15x in signals && StrongRs in signals then RelativeStrength
    else VolumeIncrease
  }

  // ---------------------------------------------------------------------
  // Analysis
  // ---------------------------------------------------------------------

  datatype OneilResult = OneilResult(symbol: string, name: string, score: int, signals: seq<OneilSignal>,
                                     pattern: Pattern, volumeRatio50: real, volumeRatio20: real,
                                     breakout20: bool, breakout50: bool, accumulation: bool,
                                     strongRs: bool, rsRatio: real,
                                     aboveMa20: bool, aboveMa50: bool, goldenCross: bool)

  function Score(r: OneilResult): int { r.score }

  /** The result record of a kept stock. */
  function ResultOf(f: Frame, symbol: string): (r: OneilResult)
    ensures r.symbol == symbol && r.name == NameOr(KospiNames, symbol)
    ensures r.score == Bands(f).score && r.signals == Bands(f).signals
    ensures r.pattern == ClassifyPattern(r.signals)
  {
    var bands := Bands(f);
    OneilResult(symbol, NameOr(KospiNames, symbol), bands.score, bands.signals,
                ClassifyPattern(bands.signals), VolumeRatio50(f), VolumeRatio20(f),
                Breakout20Day(f), Breakout50Day(f), Accumulation(f),
                StrongRelative(f), RsRatio(f),
                f.close > f.ma20, f.close > f.ma50, f.ma20 > f.ma50)
  }

  /**
   * `analyze_volume_pattern`: no result for a missing or short history or a
   * day that did not rise, nor below 50 points; otherwise the scored result.
   */
  function VolumePattern(frame: Option<Frame>, symbol: string): (r: Option<OneilResult>)
    ensures r.Some? ==> frame.Some? && frame.value.days >= 50 && frame.value.priceChange > 0.0
    ensures r.Some? ==> r.value == ResultOf(frame.value, symbol) && 50 <= r.value.score <= 100
  {
    if frame.None? || frame.value.days < 50 || !(frame.value.priceChange > 0.0) then None
    else if Bands(frame.value).score < 50 then None
    else Some(ResultOf(frame.value, symbol))
  }

  /** The analysis of one watchlist symbol from its download. */
  function Analyze(download: string -> Option<Frame>): string -> Option<OneilResult>
  {
    symbol => VolumePattern(FetchData(download(symbol)), symbol)
  }

  class Scanner {
    var watchlist: seq<string>
    var results: seq<OneilResult>

    constructor ()
      ensures watchlist == KospiWatchlist && results == []
    {
      watchlist := KospiWatchlist;
      results := [];
    }

    /**
     * `scan`: every watchlist symbol analysed in order, the accepted results
     * sorted by score, highest first, and kept in `results`.
     */
    method Scan(download: string -> Option<Frame>) returns (found: seq<OneilResult>)
      modifies this`results
      ensures found == results == ByScore(Found(watchlist, Analyze(download)), Score)
    {
      var accepted: seq<OneilResult> := [];
      var i := 0;
      while i < |watchlist|
        invariant 0 <= i <= |watchlist|
        invariant accepted == Found(watchlist[..i], Analyze(download))
      {
        assert watchlist[..i + 1][..i] == watchlist[..i];
        var result := VolumePattern(FetchData(download(watchlist[i])), watchlist[i]);
        if result.Some? {
          accepted := accepted + [result.value];
        }
        i := i + 1;
      }
      assert watchlist[..|watchlist|] == watchlist;
      results := ByScore(accepted, Score);
      found := results;
    }
  }

  // ---------------------------------------------------------------------
  // Properties
  // ---------------------------------------------------------------------

  /** The volume and price bands are first-match ladders. */
  lemma OneilBands(ratio: real, change: real)
    ensures VolumeRung(ratio).score == 40 <==> ratio >= 3.0
    ensures VolumeRung(ratio).score == 35 <==> 2.0 <= ratio < 3.0
    ensures VolumeRung(ratio).score == 25 <==> 1.5 <= ratio < 2.0
    ensures VolumeRung(ratio).score == 0 <==> ratio < 1.5
    ensures PriceRung(change).score == 30 <==> change >= 10.0
    ensures PriceRung(change).score == 25 <==> 5.0 <= change < 10.0
    ensures PriceRung(change).score == 15 <==> 3.0 <= change < 5.0
    ensures PriceRung(change).score == 0 <==> change < 3.0
  {
  }

  /** The confirming ladders, first match: breakout 15/10/0, accumulation 10/0 and relative strength 5/0. */
  lemma ConfirmingRungValues(f: Frame)
    ensures BreakoutRung(f).score == 15 <==> Breakout50Day(f)
    ensures BreakoutRung(f).score == 10 <==> !Breakout50Day(f) && Breakout20Day(f)
    ensures BreakoutRung(f).score == 0 <==> !Breakout50Day(f) && !Breakout20Day(f)
    ensures BreakoutRung(f).signals == (if Breakout50Day(f) then [Breakout50]
                                        else if Breakout20Day(f) then [Breakout20] else [])
    ensures AccumulationRung(f).score == 10 <==> Accumulation(f)
    ensures AccumulationRung(f).score == 0 <==> !Accumulation(f)
    ensures AccumulationRung(f).signals == (if Accumulation(f) then [InstitutionalAccum] else [])
    ensures RsRung(f).score == 5 <==> StrongRelative(f)
    ensures RsRung(f).score == 0 <==> !StrongRelative(f)
    ensures RsRung(f).signals == (if StrongRelative(f) then [StrongRs] else [])
  {
  }

  /** The score is the sum of the five ladders. */
  lemma BandsAreLadders(f: Frame)
    ensures Bands(f).score == VolumeRung(VolumeRatio50(f)).score + PriceRung(f.priceChange).score
                              + BreakoutRung(f).score + AccumulationRung(f).score + RsRung(f).score
  {
    assert CoreBands(f).score == VolumeRung(VolumeRatio50(f)).score + PriceRung(f.priceChange).score;
    assert ConfirmingBands(f).score == BreakoutRung(f).score + AccumulationRung(f).score + RsRung(f).score;
  }

  /** A stock is kept exactly when its history is long enough, it rose, and it reaches 50 points. */
  lemma AcceptedExactly(frame: Option<Frame>, symbol: string)
    ensures VolumePattern(frame, symbol).Some? <==>
              frame.Some? && frame.value.days >= 50 && frame.value.priceChange > 0.0 && Bands(frame.value).score >= 50
  {
  }

  /** With zero average volume the ratio is 0, which earns no volume points. */
  lemma ZeroAverageVolume(f: Frame)
    requires f.avgVolume50 <= 0.0
    ensures VolumeRatio50(f) == 0.0 && VolumeRung(VolumeRatio50(f)).score == 0
  {
  }

  /**
   * A stock with no volume spike can still be kept: the other bands reach
   * 60, and reaching 50 then needs a gain of at least 5%.
   */
  lemma AcceptedWithoutVolumeSpike(f: Frame)
    requires VolumeRatio50(f) < 1.5 && Bands(f).score >= 50
    ensures f.priceChange >= 5.0
  {
    assert CoreBands(f).score == PriceRung(f.priceChange).score;
  }

  /** Of the two volume labels, a 3x spike is never also reported as a 2x one. */
  lemma VolumeSignalsExclusive(ratio: real)
    ensures !(VolumeSpike3x in VolumeRung(ratio).signals && VolumeSpike2x in VolumeRung(ratio).signals)
    ensures PriceSurge10 in PriceRung(ratio).signals ==> PriceSurge5 !in PriceRung(ratio).signals
  {
  }

  /**
   * For a stock scored by the corrected classification, STRONG_BREAKOUT
   * means exactly a 3x volume spike with a gain of at least 5% and a
   * 50-day breakout.
   */
  lemma StrongBreakoutExactly(f: Frame)
    ensures ClassifyPattern(Bands(f).signals) == StrongBreakout <==>
              VolumeRatio50(f) >= 3.0 && f.priceChange >= 5.0 && Breakout50Day(f)
  {
    var core, confirming := CoreBands(f).signals, ConfirmingBands(f).signals;
    CoreSignals(f);
    ConfirmingSignals(f);
    assert Bands(f).signals == core + confirming;
    assert Surged(core + confirming) <==> Surged(core);
  }

  /** The core bands report a 3x spike or a surge exactly at their thresholds, and never a breakout. */
  lemma CoreSignals(f: Frame)
    ensures VolumeSpike3x in CoreBands(f).signals <==> VolumeRatio50(f) >= 3.0
    ensures Surged(CoreBands(f).signals) <==> f.priceChange >= 5.0
    ensures Breakout50 !in CoreBands(f).signals
  {
    var v, p := VolumeRung(VolumeRatio50(f)).signals, PriceRung(f.priceChange).signals;
    assert CoreBands(f).signals == v + p;
  }

  /** The confirming bands report a 50-day breakout exactly on one, and never a spike or surge. */
  lemma ConfirmingSignals(f: Frame)
    ensures Breakout50 in ConfirmingBands(f).signals <==> Breakout50Day(f)
    ensures VolumeSpike3x !in ConfirmingBands(f).signals
    ensures PriceSurge5 !in ConfirmingBands(f).signals && PriceSurge10 !in ConfirmingBands(f).signals
  {
    var b, a, r := BreakoutRung(f).signals, AccumulationRung(f).signals, RsRung(f).signals;
    assert ConfirmingBands(f).signals == b + a + r;
  }

  /**
   * As written, a stock with a 3x volume spike, a gain of 10% or more and a
   * 50-day breakout — the highest-scoring setup — is classified as a mere
   * VOLUME_INCREASE.
   */
  lemma TenPercentSurgeMisclassified()
    ensures var f := Frame(60, 112.0, 350.0, 12.0, 100.0, 100.0, 100.0, 100.0, 1.0, 1.0, 100.0, 100.0, None);
            Bands(f).score == 85
            && ClassifyPatternAsWritten(Bands(f).signals) == VolumeIncrease
            && ClassifyPattern(Bands(f).signals) == StrongBreakout
  {
    var f := Frame(60, 112.0, 350.0, 12.0, 100.0, 100.0, 100.0, 100.0, 1.0, 1.0, 100.0, 100.0, None);
    assert VolumeRatio50(f) == 3.5;
    assert Bands(f).signals == [VolumeSpike3x, PriceSurge10, Breakout50];
  }

  /** A kept result: between 50 and 100 points, classified by its signals. */
  predicate WellScored(r: OneilResult)
  {
    50 <= r.score <= 100 && r.pattern == ClassifyPattern(r.signals)
  }

  /** Every scanned result was kept by the analysis, and the list is highest score first. */
  lemma ScanShape(symbols: seq<string>, download: string -> Option<Frame>)
    ensures var s := ByScore(Found(symbols, Analyze(download)), Score);
            |s| <= |symbols|
            && (forall r :: r in s ==> WellScored(r))
            && (forall i, j :: 0 <= i < j < |s| ==> s[i].score >= s[j].score)
  {
    var found := Found(symbols, Analyze(download));
    FoundExactly(symbols, Analyze(download));
    ByScoreShape(found, Score);
    forall r | r in found ensures WellScored(r) {
      var k :| 0 <= k < |symbols| && Analyze(download)(symbols[k]) == Some(r);
      var frame := FetchData(download(symbols[k]));
      assert r == ResultOf(frame.value, symbols[k]);
    }
    ByScoreKeeps(found, Score, WellScored);
  }
}
