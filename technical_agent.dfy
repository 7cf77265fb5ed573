// The technical-analysis Level-1 agent: four 0-25 sub-scores over the
// indicator frame (price trend against the moving averages, RSI/MACD
// momentum, Bollinger bands, volume), summed into a 0-100 total with the
// shared BUY/HOLD/SELL ladder.
//
// The indicator columns (moving averages, RSI, MACD, bands, OBV) are inputs:
// a Row is one trading day after they have been computed, and the frame's
// `clean` rows are what remains after dropping every row with a missing value.
module TechnicalAgent {
  import opened Common

  /** The signals and risks the agent emits, without the numbers it formats into some of them. */
  datatype TechTag =
    | NoData | NotEnoughDays
    | FullAlignment | ShortAlignment | InverseAlignment | MixedAverages | GoldenCross
    | AboveMa5 | AboveMa20 | AboveMa60 | BelowMa60
    | StrongUptrend | Uptrend | Sideways | Downtrend
    | RsiHealthy | RsiOverbought | RsiOverboughtZone | RsiRecovering | RsiOversold
    | MacdGoldenCross | MacdRising | MacdBuySignal | MacdAboveZero | MacdWeak
    | MacdMomentumStrong | MacdMomentumImproving | MacdPositive
    | BandNeutral | BandNearLower | BandNearUpper | BandBreakout | BandBreakoutRisk
    | BandBelow | BandBelowRisk
    | SqueezeEntered | SqueezeContinuing | BandExpanding | NormalWidth
    | RisingBandUpper | RisingBand | FallingBandUpper | FallingBandLower
    | VolumeSurge | VolumeIncrease | VolumeAboveAverage | VolumeBelowAverage | VolumeWeak
    | VolumeRisingTrend | VolumeHealthy | VolumeSteady | VolumeFallingTrend
    | ObvWithPrice | ObvLeading | PriceWithoutObv | ObvDivergence | ObvFalling

  function TechLabel(t: TechTag): string
  {
    match t
    case NoData => "데이터 부족"
    case NotEnoughDays => "충분한 거래일 데이터 없음"
    case FullAlignment => "정배열 (5>20>60)"
    case ShortAlignment => "단기 정배열 (5>20)"
    case InverseAlignment => "역배열 (5<20<60)"
    case MixedAverages => "이동평균선 혼조"
    case GoldenCross => "골든크로스 발생"
    case AboveMa5 => "현재가 > 5일선"
    case AboveMa20 => "현재가 > 20일선"
    case AboveMa60 => "현재가 > 60일선"
    case BelowMa60 => "현재가 60일선 아래"
    case StrongUptrend => "강한 상승추세"
    case Uptrend => "상승추세"
    case Sideways => "횡보"
    case Downtrend => "하락추세"
    case RsiHealthy => "RSI 양호"
    case RsiOverbought => "RSI 과매수"
    case RsiOverboughtZone => "RSI 과매수 구간"
    case RsiRecovering => "RSI 회복중"
    case RsiOversold => "RSI 과매도"
    case MacdGoldenCross => "MACD 골든크로스"
    case MacdRising => "MACD 상승세"
    case MacdBuySignal => "MACD 매수신호"
    case MacdAboveZero => "MACD 0선 위"
    case MacdWeak => "MACD 약세"
    case MacdMomentumStrong => "MACD 모멘텀 강화"
    case MacdMomentumImproving => "MACD 모멘텀 개선"
    case MacdPositive => "MACD 양수"
    case BandNeutral => "중립구간"
    case BandNearLower => "하단접근"
    case BandNearUpper => "상단접근"
    case BandBreakout => "상단돌파"
    case BandBreakoutRisk => "상단 밴드 돌파"
    case BandBelow => "하단아래"
    case BandBelowRisk => "하단 밴드 이탈"
    case SqueezeEntered => "볼린저 스퀴즈 진입 (폭발예고)"
    case SqueezeContinuing => "볼린저 스퀴즈 지속"
    case BandExpanding => "밴드 확장중"
    case NormalWidth => "정상 밴드폭"
    case RisingBandUpper => "상승밴드 + 상단"
    case RisingBand => "상승밴드"
    case FallingBandUpper => "하락밴드 + 상단"
    case FallingBandLower => "하락밴드 + 하단"
    case VolumeSurge => "거래량 폭발"
    case VolumeIncrease => "거래량 증가"
    case VolumeAboveAverage => "평균 이상"
    case VolumeBelowAverage => "평균 미만"
    case VolumeWeak => "거래량 부진"
    case VolumeRisingTrend => "거래량 증가추세"
    case VolumeHealthy => "거래량 양호"
    case VolumeSteady => "거래량 유지"
    case VolumeFallingTrend => "거래량 감소추세"
    case ObvWithPrice => "OBV + 가격 동반상승"
    case ObvLeading => "OBV 상승 (가격선행)"
    case PriceWithoutObv => "가격상승 (OBV 미확인)"
    case ObvDivergence => "OBV 다이버전스 의심"
    case ObvFalling => "OBV 하락"
  }

  /** One trading day with its indicator columns. */
  datatype Row = Row(close: real, ma5: real, ma20: real, ma60: real, rsi: real,
                     macd: real, macdSignal: real, macdHist: real,
                     bbMiddle: real, bbWidth: real, bbPosition: real,
                     volume: real, volumeRatio: real, obv: real)

  /**
   * The fetched history: its number of trading days, the rows left after
   * dropping incomplete ones, and the two quotients the source divides out
   * without a guard — the 5-day MA20 slope in percent and the ratio of the
   * 5-day to the 20-day mean volume — taken as given.
   */
  datatype Frame = Frame(days: nat, clean: seq<Row>, ma20Slope: real, volumeTrend: real)

  /** What every analysis returns when too few complete rows remain. */
  const Shortage: Part<TechTag> := Part(12, [NoData], [NotEnoughDays])

  /** The mean band width over the complete rows. */
  function MeanWidth(rows: seq<Row>): real
    requires |rows| > 0
  {
    SumReal(seq(|rows|, i requires 0 <= i < |rows| => rows[i].bbWidth)) / (|rows| as real)
  }

  // ---------------------------------------------------------------------
  // Price trend
  // ---------------------------------------------------------------------

  function AlignmentRung(latest: Row): (p: Part<TechTag>)
    ensures 0 <= p.score <= 10
    ensures NoData !in p.signals
  {
    if latest.ma5 > latest.ma20 && latest.ma20 > latest.ma60 then Signal(10, FullAlignment)
    else if latest.ma5 > latest.ma20 then Signal(6, ShortAlignment)
    else if latest.ma5 < latest.ma20 && latest.ma20 < latest.ma60 then Risk(2, InverseAlignment)
    else Risk(0, MixedAverages)
  }

  /** The short average crossed above the 20-day one since the previous row. */
  predicate MaGolden(latest: Row, prev: Row)
  {
    latest.ma5 > latest.ma20 && prev.ma5 <= prev.ma20
  }

  function SlopeRung(slope: real): (p: Part<TechTag>)
    ensures 0 <= p.score <= 7
    ensures NoData !in p.signals
  {
    if slope > 2.0 then Signal(7, StrongUptrend)
    else if slope > 0.5 then Signal(4, Uptrend)
    else if slope > -0.5 then Signal(2, Sideways)
    else Risk(0, Downtrend)
  }

  /** The current price above each of the three averages: 3 + 3 + 2 points. */
  function AveragesRung(latest: Row): (p: Part<TechTag>)
    ensures 0 <= p.score <= 8 && p.risks == []
    ensures NoData !in p.signals
  {
    Then(Then(
      When(latest.close > latest.ma5, Signal(3, AboveMa5)),
      When(latest.close > latest.ma20, Signal(3, AboveMa20))),
      When(latest.close > latest.ma60, Signal(2, AboveMa60)))
  }

  /** A risk, without points, when the price is below the 60-day line. */
  function BelowTrendRung(latest: Row): (p: Part<TechTag>)
    ensures p.score == 0 && p.signals == []
  {
    When(latest.close < latest.ma60, Risk(0, BelowMa60))
  }

  /** The price-trend points before the cap at 25. */
  function PriceTrendRaw(latest: Row, prev: Row, slope: real): (p: Part<TechTag>)
    ensures 0 <= p.score <= 28
    ensures NoData !in p.signals
  {
    Then(Then(Then(Then(
      AlignmentRung(latest),
      When(MaGolden(latest, prev), Signal(3, GoldenCross))),
      AveragesRung(latest)),
      BelowTrendRung(latest)),
      SlopeRung(slope))
  }

  /** The price-trend verdict over the complete rows and the MA20 slope. */
  function PriceTrendVerdict(rows: seq<Row>, slope: real): (p: Part<TechTag>)
    ensures 0 <= p.score <= 25
    ensures p == Part(12, [NoData], [NotEnoughDays]) <==> |rows| < 60
  {
    if |rows| < 60 then Shortage
    else Capped(PriceTrendRaw(rows[|rows| - 1], rows[|rows| - 2], slope), 25)
  }

  // ---------------------------------------------------------------------
  // Momentum
  // ---------------------------------------------------------------------

  function RsiRung(rsi: real): (p: Part<TechTag>)
    ensures 0 <= p.score <= 8
    ensures NoData !in p.signals
  {
    if 50.0 < rsi < 70.0 then Signal(8, RsiHealthy)
    else if rsi >= 70.0 then Part(4, [RsiOverbought], [RsiOverboughtZone])
    else if rsi > 30.0 then Signal(4, RsiRecovering)
    else Risk(0, RsiOversold)
  }

  function MacdRung(latest: Row, prev: Row): (p: Part<TechTag>)
    ensures 0 <= p.score <= 10
    ensures NoData !in p.signals
  {
    var bull := latest.macd > latest.macdSignal;
    var cross := bull && prev.macd <= prev.macdSignal;
    var positive := latest.macd > 0.0;
    if cross then Signal(10, MacdGoldenCross)
    else if bull && positive then Signal(8, MacdRising)
    else if bull then Signal(5, MacdBuySignal)
    else if positive then Signal(3, MacdAboveZero)
    else Risk(0, MacdWeak)
  }

  function HistogramRung(latest: Row, prev: Row): (p: Part<TechTag>)
    ensures 0 <= p.score <= 7
    ensures NoData !in p.signals
  {
    var growing := latest.macdHist > prev.macdHist;
    if growing && latest.macdHist > 0.0 then Signal(7, MacdMomentumStrong)
    else if growing then Signal(4, MacdMomentumImproving)
    else if latest.macdHist > 0.0 then Signal(3, MacdPositive)
    else Points(0)
  }

  function MomentumRaw(latest: Row, prev: Row): (p: Part<TechTag>)
    ensures 0 <= p.score <= 25
    ensures NoData !in p.signals
  {
    Then(Then(RsiRung(latest.rsi), MacdRung(latest, prev)), HistogramRung(latest, prev))
  }

  function MomentumVerdict(rows: seq<Row>): (p: Part<TechTag>)
    ensures 0 <= p.score <= 25
    ensures p == Part(12, [NoData], [NotEnoughDays]) <==> |rows| < 26
  {
    if |rows| < 26 then Shortage
    else Capped(MomentumRaw(rows[|rows| - 1], rows[|rows| - 2]), 25)
  }

  // ---------------------------------------------------------------------
  // Bollinger bands
  // ---------------------------------------------------------------------

  function BandPositionRung(pos: real): (p: Part<TechTag>)
    ensures 3 <= p.score <= 10
    ensures NoData !in p.signals
  {
    if 0.4 <= pos <= 0.6 then Signal(10, BandNeutral)
    else if 0.2 <= pos < 0.4 then Signal(8, BandNearLower)
    else if 0.6 < pos <= 0.8 then Signal(7, BandNearUpper)
    else if pos > 0.8 then Part(4, [BandBreakout], [BandBreakoutRisk])
    else Part(3, [BandBelow], [BandBelowRisk])
  }

  function SqueezeRung(width: real, prevWidth: real, avgWidth: real): (p: Part<TechTag>)
    ensures 4 <= p.score <= 8
    ensures NoData !in p.signals
  {
    var isSqueeze := width < avgWidth * 0.6;
    var wasSqueeze := prevWidth < avgWidth * 0.6;
    if isSqueeze && !wasSqueeze then Signal(8, SqueezeEntered)
    else if isSqueeze then Signal(6, SqueezeContinuing)
    else if width > avgWidth * 1.5 then Signal(4, BandExpanding)
    else Signal(5, NormalWidth)
  }

  function BandDirectionRung(latest: Row, prev: Row): (p: Part<TechTag>)
    ensures 0 <= p.score <= 7
    ensures NoData !in p.signals
  {
    var rising := latest.bbMiddle > prev.bbMiddle;
    if rising && latest.bbPosition > 0.5 then Signal(7, RisingBandUpper)
    else if rising then Signal(5, RisingBand)
    else if latest.bbPosition > 0.5 then Signal(3, FallingBandUpper)
    else Risk(0, FallingBandLower)
  }

  function BollingerRaw(latest: Row, prev: Row, avgWidth: real): (p: Part<TechTag>)
    ensures 7 <= p.score <= 25
    ensures NoData !in p.signals
  {
    Then(Then(BandPositionRung(latest.bbPosition),
              SqueezeRung(latest.bbWidth, prev.bbWidth, avgWidth)),
         BandDirectionRung(latest, prev))
  }

  function BollingerVerdict(rows: seq<Row>): (p: Part<TechTag>)
    ensures 0 <= p.score <= 25
    ensures p == Part(12, [NoData], [NotEnoughDays]) <==> |rows| < 20
  {
    if |rows| < 20 then Shortage
    else Capped(BollingerRaw(rows[|rows| - 1], rows[|rows| - 2], MeanWidth(rows)), 25)
  }

  // ---------------------------------------------------------------------
  // Volume
  // ---------------------------------------------------------------------

  function VolumeRatioRung(ratio: real): (p: Part<TechTag>)
    ensures 0 <= p.score <= 10
    ensures NoData !in p.signals
  {
    if ratio >= 2.0 then Signal(10, VolumeSurge)
    else if ratio >= 1.5 then Signal(8, VolumeIncrease)
    else if ratio >= 1.0 then Signal(6, VolumeAboveAverage)
    else if ratio >= 0.7 then Signal(3, VolumeBelowAverage)
    else Risk(0, VolumeWeak)
  }

  function VolumeTrendRung(trend: real): (p: Part<TechTag>)
    ensures 0 <= p.score <= 8
    ensures NoData !in p.signals
  {
    if trend > 1.3 then Signal(8, VolumeRisingTrend)
    else if trend > 1.1 then Signal(5, VolumeHealthy)
    else if trend > 0.9 then Signal(3, VolumeSteady)
    else Risk(0, VolumeFallingTrend)
  }

  /** OBV and price against the row four days earlier. */
  function ObvRung(latest: Row, earlier: Row): (p: Part<TechTag>)
    ensures 0 <= p.score <= 7
    ensures NoData !in p.signals
  {
    var obvUp := latest.obv > earlier.obv;
    var priceUp := latest.close > earlier.close;
    if obvUp && priceUp then Signal(7, ObvWithPrice)
    else if obvUp then Signal(5, ObvLeading)
    else if priceUp then Part(3, [PriceWithoutObv], [ObvDivergence])
    else Risk(0, ObvFalling)
  }

  function VolumeRaw(latest: Row, earlier: Row, trend: real): (p: Part<TechTag>)
    ensures 0 <= p.score <= 25
    ensures NoData !in p.signals
  {
    Then(Then(VolumeRatioRung(latest.volumeRatio), VolumeTrendRung(trend)), ObvRung(latest, earlier))
  }

  function VolumeVerdict(rows: seq<Row>, trend: real): (p: Part<TechTag>)
    ensures 0 <= p.score <= 25
    ensures p == Part(12, [NoData], [NotEnoughDays]) <==> |rows| < 20
  {
    if |rows| < 20 then Shortage
    else Capped(VolumeRaw(rows[|rows| - 1], rows[|rows| - 5], trend), 25)
  }

  // ---------------------------------------------------------------------
  // The result record
  // ---------------------------------------------------------------------

  /**
   * What `analyze` returns for a fetched history: the error record when the
   * history is empty, otherwise the four verdicts in the order price trend,
   * momentum, Bollinger, volume.
   */
  function TechnicalReport(f: Frame): (r: AgentReport)
    ensures r.FetchFailed? <==> f.days == 0
    ensures r.Report? ==> r.breakdown == [PriceTrendVerdict(f.clean, f.ma20Slope).score,
                                          MomentumVerdict(f.clean).score,
                                          BollingerVerdict(f.clean).score,
                                          VolumeVerdict(f.clean, f.volumeTrend).score]
    ensures r.Report? ==> 0 <= r.total <= 100 && r.rec == Recommend(r.total)
  {
    if f.days == 0 then FetchFailed
    else Level1Report(PriceTrendVerdict(f.clean, f.ma20Slope), MomentumVerdict(f.clean),
                      BollingerVerdict(f.clean), VolumeVerdict(f.clean, f.volumeTrend),
                      TechLabel, map[], map[])
  }

  // ---------------------------------------------------------------------
  // The agent object
  // ---------------------------------------------------------------------

  class TechnicalAnalysisAgent {
    /** The fetched history with its indicators; None before the first fetch. */
    var data: Option<Frame>

    constructor()
      ensures data == None
    {
      data := None;
    }

    method AnalyzePriceTrend() returns (p: Part<TechTag>)
      requires data.Some?
      ensures p == PriceTrendVerdict(data.value.clean, data.value.ma20Slope)
    {
      var df := data.value.clean;
      if |df| < 60 {
        return Shortage;
      }
      var latest := df[|df| - 1];
      p := AlignmentRung(latest);
      p := Then(p, When(MaGolden(latest, df[|df| - 2]), Signal(3, GoldenCross)));
      p := Then(p, AveragesRung(latest));
      p := Then(p, BelowTrendRung(latest));
      p := Then(p, SlopeRung(data.value.ma20Slope));
      p := Capped(p, 25);
    }

    method AnalyzeMomentum() returns (p: Part<TechTag>)
      requires data.Some?
      ensures p == MomentumVerdict(data.value.clean)
    {
      var df := data.value.clean;
      if |df| < 26 {
        return Shortage;
      }
      var latest := df[|df| - 1];
      var prev := df[|df| - 2];
      p := RsiRung(latest.rsi);
      p := Then(p, MacdRung(latest, prev));
      p := Then(p, HistogramRung(latest, prev));
      p := Capped(p, 25);
    }

    method AnalyzeBollinger() returns (p: Part<TechTag>)
      requires data.Some?
      ensures p == BollingerVerdict(data.value.clean)
    {
      var df := data.value.clean;
      if |df| < 20 {
        return Shortage;
      }
      var latest := df[|df| - 1];
      var prev := df[|df| - 2];
      var avgWidth := MeanWidth(df);
      p := BandPositionRung(latest.bbPosition);
      p := Then(p, SqueezeRung(latest.bbWidth, prev.bbWidth, avgWidth));
      p := Then(p, BandDirectionRung(latest, prev));
      p := Capped(p, 25);
    }

    method AnalyzeVolume() returns (p: Part<TechTag>)
      requires data.Some?
      ensures p == VolumeVerdict(data.value.clean, data.value.volumeTrend)
    {
      var df := data.value.clean;
      if |df| < 20 {
        return Shortage;
      }
      var latest := df[|df| - 1];
      p := VolumeRatioRung(latest.volumeRatio);
      p := Then(p, VolumeTrendRung(data.value.volumeTrend));
      p := Then(p, ObvRung(latest, df[|df| - 5]));
      p := Capped(p, 25);
    }

    /**
     * `analyze`: a fetch that raises leaves the data as it was and yields the
     * error record; otherwise the fetched history replaces the data, and an
     * empty one also yields the error record.
     */
    method Analyze(fetched: Option<Frame>) returns (r: AgentReport)
      modifies this
      ensures fetched.None? ==> r == FetchFailed && data == old(data)
      ensures fetched.Some? ==> data == fetched && r == TechnicalReport(fetched.value)
    {
      if fetched.None? {
        return FetchFailed;
      }
      data := fetched;
      if fetched.value.days == 0 {
        return FetchFailed;
      }
      var price := AnalyzePriceTrend();
      var momentum := AnalyzeMomentum();
      var bollinger := AnalyzeBollinger();
      var volume := AnalyzeVolume();
      r := Level1Report(price, momentum, bollinger, volume, TechLabel, map[], map[]);
    }
  }

  // ---------------------------------------------------------------------
  // Properties of the scoring
  // ---------------------------------------------------------------------

  /** A "데이터 부족" signal appears in the price trend exactly when fewer than 60 complete rows remain. */
  lemma PriceTrendShortageExactly(rows: seq<Row>, slope: real)
    ensures NoData in PriceTrendVerdict(rows, slope).signals <==> |rows| < 60
  {
  }

  /** A "데이터 부족" signal appears in momentum exactly when fewer than 26 complete rows remain. */
  lemma MomentumShortageExactly(rows: seq<Row>)
    ensures NoData in MomentumVerdict(rows).signals <==> |rows| < 26
  {
  }

  /** A "데이터 부족" signal appears in the Bollinger and volume parts exactly when fewer than 20 complete rows remain. */
  lemma BandsAndVolumeShortageExactly(rows: seq<Row>, trend: real)
    ensures NoData in BollingerVerdict(rows).signals <==> |rows| < 20
    ensures NoData in VolumeVerdict(rows, trend).signals <==> |rows| < 20
  {
  }

  /** Too few complete rows give exactly 12 points with the shortage tags. */
  lemma ShortageScoresTwelve(rows: seq<Row>, slope: real, trend: real)
    requires |rows| < 20
    ensures PriceTrendVerdict(rows, slope) == Part(12, [NoData], [NotEnoughDays])
    ensures MomentumVerdict(rows) == Part(12, [NoData], [NotEnoughDays])
    ensures BollingerVerdict(rows) == Part(12, [NoData], [NotEnoughDays])
    ensures VolumeVerdict(rows, trend) == Part(12, [NoData], [NotEnoughDays])
  {
  }

  /** The price-trend ladders: alignment 10/6/2/0, cross 3/0, slope 7/4/2/0. */
  lemma PriceTrendBands(latest: Row, prev: Row, slope: real)
    ensures AlignmentRung(latest).score in {10, 6, 2, 0}
    ensures AlignmentRung(latest).score == 10 <==> latest.ma5 > latest.ma20 > latest.ma60
    ensures AlignmentRung(latest).risks != [] <==> !(latest.ma5 > latest.ma20)
    ensures SlopeRung(slope).score in {7, 4, 2, 0}
    ensures SlopeRung(slope).score == 7 <==> slope > 2.0
    ensures SlopeRung(slope).risks != [] <==> slope <= -0.5
    ensures SlopeRung(slope).risks != [] <==> SlopeRung(slope).score == 0
  {
  }


  /** The cap binds: a golden cross into a full alignment on a steep slope scores 28 before it. */
  lemma PriceTrendCapBinds()
    ensures var latest := Row(13.0, 12.0, 11.0, 10.0, 50.0, 0.0, 0.0, 0.0, 0.0, 0.0, 0.0, 0.0, 0.0, 0.0);
            var prev := Row(13.0, 10.0, 11.0, 10.0, 50.0, 0.0, 0.0, 0.0, 0.0, 0.0, 0.0, 0.0, 0.0, 0.0);
            PriceTrendRaw(latest, prev, 3.0).score == 28
            && Capped(PriceTrendRaw(latest, prev, 3.0), 25).score == 25
  {
  }

  /** RSI strictly in (50, 70) scores 8; at least 70 or in (30, 50] scores 4; at most 30 scores nothing and is a risk. */
  lemma MomentumBands(latest: Row, prev: Row)
    ensures RsiRung(latest.rsi).score == 8 <==> 50.0 < latest.rsi < 70.0
    ensures RsiRung(latest.rsi).score == 4 <==> (latest.rsi >= 70.0 || 30.0 < latest.rsi <= 50.0)
    ensures RsiRung(latest.rsi).score == 0 <==> latest.rsi <= 30.0
    ensures RsiOversold in RsiRung(latest.rsi).risks <==> latest.rsi <= 30.0
    ensures MacdRung(latest, prev).score in {10, 8, 5, 3, 0}
    ensures MacdRung(latest, prev).score == 10 <==> latest.macd > latest.macdSignal && prev.macd <= prev.macdSignal
    ensures MacdRung(latest, prev).risks != [] <==> MacdRung(latest, prev).score == 0
    ensures HistogramRung(latest, prev).score in {7, 4, 3, 0}
    ensures HistogramRung(latest, prev).risks == []
  {
  }


  /** Band position always scores at least 3; the squeeze part has four outcomes, none of them 0. */
  lemma BollingerBands(latest: Row, prev: Row, avgWidth: real)
    ensures 3 <= BandPositionRung(latest.bbPosition).score <= 10
    ensures BandPositionRung(latest.bbPosition).score == 10 <==> 0.4 <= latest.bbPosition <= 0.6
    ensures BandPositionRung(latest.bbPosition).risks != []
            <==> (latest.bbPosition > 0.8 || latest.bbPosition < 0.2)
    ensures SqueezeRung(latest.bbWidth, prev.bbWidth, avgWidth).score in {8, 6, 4, 5}
    ensures SqueezeRung(latest.bbWidth, prev.bbWidth, avgWidth).score == 8
            <==> latest.bbWidth < avgWidth * 0.6 && !(prev.bbWidth < avgWidth * 0.6)
    ensures BandDirectionRung(latest, prev).score in {7, 5, 3, 0}
    ensures BandDirectionRung(latest, prev).risks != [] <==> BandDirectionRung(latest, prev).score == 0
  {
  }


  /** The volume ladders are 10/8/6/3/0, 8/5/3/0 and 7/5/3/0. */
  lemma VolumeBands(latest: Row, earlier: Row, trend: real)
    ensures VolumeRatioRung(latest.volumeRatio).score in {10, 8, 6, 3, 0}
    ensures VolumeRatioRung(latest.volumeRatio).score == 0 <==> latest.volumeRatio < 0.7
    ensures VolumeTrendRung(trend).score in {8, 5, 3, 0}
    ensures VolumeTrendRung(trend).score == 0 <==> trend <= 0.9
    ensures ObvRung(latest, earlier).score in {7, 5, 3, 0}
    ensures ObvRung(latest, earlier).score == 7 <==> latest.obv > earlier.obv && latest.close > earlier.close
  {
  }

}
