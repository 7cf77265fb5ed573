// minervini_scanner.py: the Minervini volatility-contraction (VCP) scanner.
// A stock above a rising 50-day average is scored on the contraction of its
// ATR and volume over three 10-day segments of the last 30 days, its price
// range, its pullback depth and its distance to resistance; it is kept when
// it contracts or consolidates tightly and reaches 50 points, and is graded
// by score and VCP stage.
module Minervini {
  import opened Common
  import opened Sorting
  import opened ScannerCommon

  datatype VcpSignal =
    | StrongVcp | VcpPattern | VolatilityDeclining
    | VolumeDryUp | VolumeContracting
    | TightConsolidation | PriceCompression
    | ShallowPullback | ImprovingContraction
    | BreakoutSetup

  function SignalText(s: VcpSignal): string
  {
    match s
    case StrongVcp => "STRONG_VCP"
    case VcpPattern => "VCP_PATTERN"
    case VolatilityDeclining => "VOLATILITY_DECLINING"
    case VolumeDryUp => "VOLUME_DRY_UP"
    case VolumeContracting => "VOLUME_CONTRACTION"
    case TightConsolidation => "TIGHT_CONSOLIDATION"
    case PriceCompression => "PRICE_COMPRESSION"
    case ShallowPullback => "SHALLOW_PULLBACK"
    case ImprovingContraction => "IMPROVING_CONTRACTION"
    case BreakoutSetup => "BREAKOUT_SETUP"
  }

  datatype Setup = PerfectVcp | HighQuality | GoodSetup | EarlyStage

  /**
   * The downloaded history, reduced to what the scorer reads over its last
   * 30 rows: the number of rows, the last close, the 50-day average now and
   * 9 rows back (read only when it exists, from 59 rows on), the mean ATR
   * percentage and mean volume of the first, middle and last 10 rows,
   * the high-low range in percent, the depths of the two latest swings in
   * percent, the 10-day high, and the 30-row returns of the stock and of KOSPI (None when the KOSPI download fails).
   */
  datatype Frame = Frame(days: nat, close: real, ma50: real, ma50Earlier: real,
                         atr1: real, atr2: real, atr3: real,
                         vol1: real, vol2: real, vol3: real,
                         consolidationRange: real, pullbackA: real, pullbackB: real,
                         resistance: real, relative: Option<(real, real)>)

  /** `fetch_data`: None for a failed download, an empty frame or fewer than 50 rows. */
  function FetchData(download: Option<Frame>): (f: Option<Frame>)
    ensures f.Some? ==> download == f && f.value.days >= 50
    ensures f.None? ==> download.None? || download.value.days < 50
  {
    if download.None? || download.value.days < 50 then None else download
  }

  /**
   * Stage 2 of the trend: above the 50-day average, which is itself rising.
   * The average 9 rows back needs 59 rows; on a shorter history it is NaN,
   * the comparison with it is false, and the trend fails.
   */
  predicate Uptrend(f: Frame) { f.close > f.ma50 && f.days >= 59 && f.ma50 > f.ma50Earlier }

  /** ATR falling segment by segment, the last below 70% of the first. */
  predicate VolatilityContraction(f: Frame) { f.atr1 > f.atr2 > f.atr3 && f.atr3 < f.atr1 * 0.7 }

  /** Volume falling segment by segment, or the last below 80% of the first. */
  predicate VolumeContraction(f: Frame) { (f.vol1 > f.vol2 > f.vol3) || f.vol3 < f.vol1 * 0.8 }

  predicate Tight(f: Frame) { f.consolidationRange < 15.0 }

  /** The latest pullback less than 1.2 times the one before. */
  predicate ContractionImproving(f: Frame) { f.pullbackA < f.pullbackB * 1.2 }

  predicate NearResistance(f: Frame) { f.close >= f.resistance * 0.97 }

  /** `stock_return / kospi_return if kospi_return != 0 else 1`, and 1 when KOSPI is unavailable. */
  function RsRatio(f: Frame): real
  {
    match f.relative
    case None => 1.0
    case Some((stock, kospi)) => if kospi != 0.0 then stock / kospi else 1.0
  }

  /** Strong relative strength, which a failed KOSPI download assumes. */
  predicate StrongRelative(f: Frame) { f.relative.None? || RsRatio(f) > 1.0 }

  // ---------------------------------------------------------------------
  // Point bands
  // ---------------------------------------------------------------------

  function VolatilityRung(f: Frame): (p: Part<VcpSignal>)
    ensures 0 <= p.score <= 30 && |p.signals| <= 1 && p.risks == []
  {
    if VolatilityContraction(f) && f.atr3 < f.atr1 * 0.5 then Signal(30, StrongVcp)
    else if VolatilityContraction(f) then Signal(25, VcpPattern)
    else if f.atr3 < f.atr1 * 0.8 then Signal(15, VolatilityDeclining)
    else Points(0)
  }

  /** The VCP stage the volatility band sets along with its points. */
  function VcpStage(f: Frame): (stage: int)
    ensures 0 <= stage <= 3
  {
    if VolatilityContraction(f) && f.atr3 < f.atr1 * 0.5 then 3
    else if VolatilityContraction(f) then 2
    else if f.atr3 < f.atr1 * 0.8 then 1
    else 0
  }

  function VolumeRung(f: Frame): (p: Part<VcpSignal>)
    ensures 0 <= p.score <= 25 && |p.signals| <= 1 && p.risks == []
  {
    if VolumeContraction(f) && f.vol3 < f.vol1 * 0.6 then Signal(25, VolumeDryUp)
    else if VolumeContraction(f) then Signal(20, VolumeContracting)
    else Points(0)
  }

  function RangeRung(f: Frame): (p: Part<VcpSignal>)
    ensures 0 <= p.score <= 20 && |p.signals| <= 1 && p.risks == []
  {
    if Tight(f) && f.consolidationRange < 10.0 then Signal(20, TightConsolidation)
    else if Tight(f) then Signal(15, PriceCompression)
    else Points(0)
  }

  function PullbackRung(f: Frame): (p: Part<VcpSignal>)
    ensures 0 <= p.score <= 15 && |p.signals| <= 1 && p.risks == []
  {
    if ContractionImproving(f) && f.pullbackA < 10.0 then Signal(15, ShallowPullback)
    else if ContractionImproving(f) then Signal(10, ImprovingContraction)
    else Points(0)
  }

  function ResistanceRung(f: Frame): (p: Part<VcpSignal>)
    ensures 0 <= p.score <= 10 && |p.signals| <= 1 && p.risks == []
  {
    if NearResistance(f) then Signal(10, BreakoutSetup) else Points(0)
  }

  /** Volatility and volume contraction. */
  function ContractionBands(f: Frame): (p: Part<VcpSignal>)
    ensures 0 <= p.score <= 55 && |p.signals| <= 2 && p.risks == []
  {
    Then(VolatilityRung(f), VolumeRung(f))
  }

  /** Range, pullback and resistance. */
  function SetupBands(f: Frame): (p: Part<VcpSignal>)
    ensures 0 <= p.score <= 45 && |p.signals| <= 3 && p.risks == []
  {
    Then(Then(RangeRung(f), PullbackRung(f)), ResistanceRung(f))
  }

  /** The score and signals, in the order the bands are applied. */
  function Bands(f: Frame): (p: Part<VcpSignal>)
    ensures 0 <= p.score <= 100 && |p.signals| <= 5 && p.risks == []
  {
    Then(ContractionBands(f), SetupBands(f))
  }

  /** `_classify_setup`: the first grade whose score and stage minimums are met. */
  function ClassifySetup(score: int, stage: int): Setup
  {
    if score >= 80 && stage >= 3 then PerfectVcp
    else if score >= 70 && stage >= 2 then HighQuality
    else if score >= 60 then GoodSetup
    else EarlyStage
  }

  // ---------------------------------------------------------------------
  // Analysis
  // ---------------------------------------------------------------------

  datatype VcpResult = VcpResult(symbol: string, name: string, vcpStage: int, score: int,
                                 signals: seq<VcpSignal>, setupQuality: Setup,
                                 nearResistance: bool, volumeDryUp: bool,
                                 strongRs: bool, rsRatio: real)

  function Score(r: VcpResult): int { r.score }

  /** The result record of a kept stock. */
  function ResultOf(f: Frame, symbol: string): (r: VcpResult)
    ensures r.symbol == symbol && r.name == NameOr(KospiNames, symbol) && r.vcpStage == VcpStage(f)
    ensures r.score == Bands(f).score && r.signals == Bands(f).signals
    ensures r.setupQuality == ClassifySetup(r.score, r.vcpStage)
  {
    VcpResult(symbol, NameOr(KospiNames, symbol), VcpStage(f), Bands(f).score, Bands(f).signals,
              ClassifySetup(Bands(f).score, VcpStage(f)), NearResistance(f), VolumeContraction(f),
              StrongRelative(f), RsRatio(f))
  }

  /**
   * `find_vcp_pattern`: no result for a missing or short history, outside
   * the stage-2 uptrend, without volatility contraction or a tight range,
   * or below 50 points; otherwise the scored result.
   */
  function VcpPatternOf(frame: Option<Frame>, symbol: string): (r: Option<VcpResult>)
    ensures r.Some? ==> frame.Some? && frame.value.days >= 50 && Uptrend(frame.value)
                        && (VolatilityContraction(frame.value) || Tight(frame.value))
    ensures r.Some? ==> r.value == ResultOf(frame.value, symbol) && 50 <= r.value.score <= 100
  {
    if frame.None? || frame.value.days < 50 || !Uptrend(frame.value) then None
    else if !(VolatilityContraction(frame.value) || Tight(frame.value)) then None
    else if Bands(frame.value).score < 50 then None
    else Some(ResultOf(frame.value, symbol))
  }

  function Analyze(download: string -> Option<Frame>): string -> Option<VcpResult>
  {
    symbol => VcpPatternOf(FetchData(download(symbol)), symbol)
  }

  class Scanner {
    var watchlist: seq<string>
    var results: seq<VcpResult>

    constructor ()
      ensures watchlist == KospiWatchlist && results == []
    {
      watchlist := KospiWatchlist;
      results := [];
    }

    /**
     * `scan`: every watchlist symbol analysed in order, the accepted results
     * sorted by score, highest first, and kept in `results`.
     */
    method Scan(download: string -> Option<Frame>) returns (found: seq<VcpResult>)
      modifies this`results
      ensures found == results == ByScore(Found(watchlist, Analyze(download)), Score)
    {
      var accepted: seq<VcpResult> := [];
      var i := 0;
      while i < |watchlist|
        invariant 0 <= i <= |watchlist|
        invariant accepted == Found(watchlist[..i], Analyze(download))
      {
        assert watchlist[..i + 1][..i] == watchlist[..i];
        var result := VcpPatternOf(FetchData(download(watchlist[i])), watchlist[i]);
        if result.Some? {
          accepted := accepted + [result.value];
        }
        i := i + 1;
      }
      assert watchlist[..|watchlist|] == watchlist;
      results := ByScore(accepted, Score);
      found := results;
    }
  }

  // ---------------------------------------------------------------------
  // Properties
  // ---------------------------------------------------------------------

  /** The volatility band and the stage move together, and the bands are first-match. */
  lemma VolatilityBandStage(f: Frame)
    ensures VolatilityRung(f).score == 30 <==> VcpStage(f) == 3
    ensures VolatilityRung(f).score == 25 <==> VcpStage(f) == 2
    ensures VolatilityRung(f).score == 15 <==> VcpStage(f) == 1
    ensures VolatilityRung(f).score == 0 <==> VcpStage(f) == 0
    ensures VcpStage(f) >= 2 <==> VolatilityContraction(f)
    ensures VcpStage(f) == 3 <==> VolatilityRung(f).signals == [StrongVcp]
  {
  }

  /**
   * The other four ladders, first match: volume 25/20/0, range 20/15/0,
   * pullback 15/10/0 and resistance 10/0, each with its signal.
   */
  lemma SetupRungValues(f: Frame)
    ensures VolumeRung(f).score == 25 <==> VolumeContraction(f) && f.vol3 < f.vol1 * 0.6
    ensures VolumeRung(f).score == 20 <==> VolumeContraction(f) && !(f.vol3 < f.vol1 * 0.6)
    ensures VolumeRung(f).score == 0 <==> !VolumeContraction(f)
    ensures VolumeRung(f).signals == [VolumeDryUp] <==> VolumeRung(f).score == 25
    ensures RangeRung(f).score == 20 <==> f.consolidationRange < 10.0
    ensures RangeRung(f).score == 15 <==> 10.0 <= f.consolidationRange < 15.0
    ensures RangeRung(f).score == 0 <==> f.consolidationRange >= 15.0
    ensures RangeRung(f).signals == [TightConsolidation] <==> RangeRung(f).score == 20
    ensures PullbackRung(f).score == 15 <==> ContractionImproving(f) && f.pullbackA < 10.0
    ensures PullbackRung(f).score == 10 <==> ContractionImproving(f) && f.pullbackA >= 10.0
    ensures PullbackRung(f).score == 0 <==> !ContractionImproving(f)
    ensures PullbackRung(f).signals == [ShallowPullback] <==> PullbackRung(f).score == 15
    ensures ResistanceRung(f).score == 10 <==> NearResistance(f)
    ensures ResistanceRung(f).score == 0 <==> !NearResistance(f)
    ensures ResistanceRung(f).signals == (if NearResistance(f) then [BreakoutSetup] else [])
  {
  }

  /** The score is the sum of the five ladders and the signals are theirs, in band order. */
  lemma BandsAreLadders(f: Frame)
    ensures Bands(f).score == VolatilityRung(f).score + VolumeRung(f).score + RangeRung(f).score
                              + PullbackRung(f).score + ResistanceRung(f).score
    ensures Bands(f).signals == VolatilityRung(f).signals + VolumeRung(f).signals + RangeRung(f).signals
                                + PullbackRung(f).signals + ResistanceRung(f).signals
  {
  }

  /** Each grade holds exactly under its conditions. */
  lemma SetupExactly(score: int, stage: int)
    ensures ClassifySetup(score, stage) == PerfectVcp <==> score >= 80 && stage >= 3
    ensures ClassifySetup(score, stage) == HighQuality <==> !(score >= 80 && stage >= 3) && score >= 70 && stage >= 2
    ensures ClassifySetup(score, stage) == GoodSetup <==> !(score >= 70 && stage >= 2) && score >= 60
    ensures ClassifySetup(score, stage) == EarlyStage <==> score < 60
  {
  }

  /** A history of 50 to 58 rows is never kept: its earlier 50-day average is NaN. */
  lemma ShortHistoryNeverKept(frame: Option<Frame>, symbol: string)
    requires frame.Some? && frame.value.days < 59
    ensures VcpPatternOf(frame, symbol).None?
  {
  }

  /** A stock is kept exactly when the trend, the contraction-or-range gate and the 50 points all hold. */
  lemma AcceptedExactly(frame: Option<Frame>, symbol: string)
    ensures VcpPatternOf(frame, symbol).Some? <==>
              frame.Some? && frame.value.days >= 50 && Uptrend(frame.value)
              && (VolatilityContraction(frame.value) || Tight(frame.value)) && Bands(frame.value).score >= 50
  {
  }

  /**
   * A kept PERFECT_VCP has a strong VCP signal; a kept stock without
   * volatility contraction is in a tight range, at stage 1 at most, and
   * still needs at least 15 points from volume, pullback and resistance.
   */
  lemma KeptSetups(frame: Option<Frame>, symbol: string)
    requires VcpPatternOf(frame, symbol).Some?
    ensures var r := VcpPatternOf(frame, symbol).value;
            (r.setupQuality == PerfectVcp ==> StrongVcp in r.signals)
            && (r.setupQuality == EarlyStage <==> r.score < 60)
            && (!VolatilityContraction(frame.value) ==>
                  Tight(frame.value) && r.vcpStage <= 1
                  && VolumeRung(frame.value).score + PullbackRung(frame.value).score + ResistanceRung(frame.value).score >= 15)
  {
    var f := frame.value;
    var r := VcpPatternOf(frame, symbol).value;
    VolatilityBandStage(f);
    if r.setupQuality == PerfectVcp {
      assert r.vcpStage == 3;
      assert r.signals == VolatilityRung(f).signals + VolumeRung(f).signals + SetupBands(f).signals;
    }
  }

  /** A kept result: between 50 and 100 points, graded by its score and stage. */
  predicate WellScored(r: VcpResult)
  {
    50 <= r.score <= 100 && 0 <= r.vcpStage <= 3 && r.setupQuality == ClassifySetup(r.score, r.vcpStage)
  }

  /** Every scanned result was kept by the analysis, and the list is highest score first. */
  lemma ScanShape(symbols: seq<string>, download: string -> Option<Frame>)
    ensures var s := ByScore(Found(symbols, Analyze(download)), Score);
            |s| <= |symbols|
            && (forall r :: r in s ==> WellScored(r))
            && (forall i, j :: 0 <= i < j < |s| ==> s[i].score >= s[j].score)
  {
    var found := Found(symbols, Analyze(download));
    FoundExactly(symbols, Analyze(download));
    ByScoreShape(found, Score);
    forall r | r in found ensures WellScored(r) {
      var k :| 0 <= k < |symbols| && Analyze(download)(symbols[k]) == Some(r);
      var frame := FetchData(download(symbols[k]));
      assert r == ResultOf(frame.value, symbols[k]);
    }
    ByScoreKeeps(found, Score, WellScored);
  }
}
