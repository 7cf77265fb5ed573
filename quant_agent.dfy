// QUANT_001: the quantitative Level-1 analyst.  It scores profitability,
// growth, stability and valuation out of 25 each from yfinance's `info`
// dictionary, stores the four sub-scores in the agent's `scores` map and the
// percentages it derived in its `metrics` map.
module QuantAgent {
  import opened Common

  /** A value of the `info` dictionary as `get_metric` sees it. */
  datatype Metric = Null | NaN | Num(v: real)

  /** The fetched `info` dictionary: its numeric entries and the two text entries the agent reports. */
  datatype QuantInfo = QuantInfo(values: map<string, Metric>, sector: Option<string>, industry: Option<string>)

  /** The labels the quant ladders emit, one constructor per label. */
  datatype QuantTag =
    | RoeExcellent
    | RoeGood
    | RoeFair
    | RoeLow
    | RoePoor
    | RoaExcellent
    | RoaGood
    | RoaPoor
    | OpMarginExcellent
    | OpMarginGood
    | OpMarginFair
    | OpMarginPoor
    | NetMarginExcellent
    | NetMarginGood
    | NetMarginDeficit
    | RevenueHighGrowth
    | RevenueGrowing
    | RevenueSteady
    | RevenueDecline
    | EarningsHighGrowth
    | EarningsGrowing
    | EarningsDecline
    | EpsHighGrowth
    | EpsGrowing
    | EpsDecline
    | DebtExcellent
    | DebtGood
    | DebtFair
    | DebtHigh
    | DebtExcessive
    | LiquidityExcellent
    | LiquidityGood
    | LiquidityShort
    | CashExcellent
    | CashGood
    | CashFlowPoor
    | PerVeryAttractive
    | PerSuspectedTrap
    | PerFair
    | PerSomewhatHigh
    | PerOvervalued
    | PbrUndervalued
    | PbrAttractive
    | PbrHigh
    | PbrOverpriced
    | PegExcellent
    | PegGood
    | PegHigh
    | EvAttractive
    | EvFair
    | EvHigh

  /** The label text of a tag (the source appends the formatted figure). */
  function QuantLabel(t: QuantTag): string
  {
    match t
    case RoeExcellent => "ROE 우수"
    case RoeGood => "ROE 양호"
    case RoeFair => "ROE 보통"
    case RoeLow => "ROE 낮음"
    case RoePoor => "ROE 부진"
    case RoaExcellent => "ROA 우수"
    case RoaGood => "ROA 양호"
    case RoaPoor => "ROA 부진"
    case OpMarginExcellent => "영업이익률 우수"
    case OpMarginGood => "영업이익률 양호"
    case OpMarginFair => "영업이익률 보통"
    case OpMarginPoor => "영업이익률 부진"
    case NetMarginExcellent => "순이익률 우수"
    case NetMarginGood => "순이익률 양호"
    case NetMarginDeficit => "순이익률 적자"
    case RevenueHighGrowth => "매출 고성장"
    case RevenueGrowing => "매출 성장"
    case RevenueSteady => "매출 안정적"
    case RevenueDecline => "매출 감소"
    case EarningsHighGrowth => "이익 고성장"
    case EarningsGrowing => "이익 성장"
    case EarningsDecline => "이익 감소"
    case EpsHighGrowth => "EPS 고성장"
    case EpsGrowing => "EPS 성장"
    case EpsDecline => "EPS 감소"
    case DebtExcellent => "부채비율 우수"
    case DebtGood => "부채비율 양호"
    case DebtFair => "부채비율 보통"
    case DebtHigh => "부채비율 높음"
    case DebtExcessive => "부채비율 과다"
    case LiquidityExcellent => "유동비율 우수"
    case LiquidityGood => "유동비율 양호"
    case LiquidityShort => "유동비율 부족"
    case CashExcellent => "현금창출 우수"
    case CashGood => "현금창출 양호"
    case CashFlowPoor => "현금흐름 부진"
    case PerVeryAttractive => "PER 매우매력"
    case PerSuspectedTrap => "PER 저평가 의심"
    case PerFair => "PER 적정"
    case PerSomewhatHigh => "PER 다소높음"
    case PerOvervalued => "PER 과고평가"
    case PbrUndervalued => "PBR 저평가"
    case PbrAttractive => "PBR 매력"
    case PbrHigh => "PBR 높음"
    case PbrOverpriced => "PBR 과고"
    case PegExcellent => "PEG 우수"
    case PegGood => "PEG 양호"
    case PegHigh => "PEG 높음"
    case EvAttractive => "EV/EBITDA 매력"
    case EvFair => "EV/EBITDA 적정"
    case EvHigh => "EV/EBITDA 높음"
  }

  const EmptyInfo: QuantInfo := QuantInfo(map[], None, None)

  /** `get_metric`: the stored value, or `default` when the key is missing, None or NaN. */
  function MetricOf(info: QuantInfo, key: string, default: real): (r: real)
    ensures (key !in info.values || !info.values[key].Num?) ==> r == default
    ensures key in info.values && info.values[key].Num? ==> r == info.values[key].v
  {
    if key in info.values && info.values[key].Num? then info.values[key].v else default
  }

  /** A ratio metric expressed in percent, missing values counting as 0. */
  function Percent(info: QuantInfo, key: string): real
  {
    MetricOf(info, key, 0.0) * 100.0
  }

  // ---------------------------------------------------------------------
  // Profitability (max 25): ROE 8 + ROA 5 + operating margin 6 + net margin 6
  // ---------------------------------------------------------------------

  function RoeRung(roe: real): (p: Part<QuantTag>)
    ensures 0 <= p.score <= 8 && |p.risks| <= 1
  {
    if roe >= 20.0 then Signal(8, RoeExcellent)
    else if roe >= 15.0 then Signal(6, RoeGood)
    else if roe >= 10.0 then Signal(4, RoeFair)
    else if roe > 0.0 then Signal(2, RoeLow)
    else Risk(0, RoePoor)
  }

  function RoaRung(roa: real): (p: Part<QuantTag>)
    ensures 0 <= p.score <= 5 && |p.risks| <= 1
  {
    if roa >= 10.0 then Signal(5, RoaExcellent)
    else if roa >= 5.0 then Signal(3, RoaGood)
    else if roa > 0.0 then Points(1)
    else Risk(0, RoaPoor)
  }

  function OperatingMarginRung(m: real): (p: Part<QuantTag>)
    ensures 0 <= p.score <= 6 && |p.risks| <= 1
  {
    if m >= 20.0 then Signal(6, OpMarginExcellent)
    else if m >= 10.0 then Signal(4, OpMarginGood)
    else if m >= 5.0 then Signal(2, OpMarginFair)
    else if m > 0.0 then Points(1)
    else Risk(0, OpMarginPoor)
  }

  function NetMarginRung(m: real): (p: Part<QuantTag>)
    ensures 0 <= p.score <= 6 && |p.risks| <= 1
  {
    if m >= 15.0 then Signal(6, NetMarginExcellent)
    else if m >= 8.0 then Signal(4, NetMarginGood)
    else if m >= 3.0 then Points(2)
    else if m > 0.0 then Points(1)
    else Risk(0, NetMarginDeficit)
  }

  /** The profitability ladders in order, clamped at 25. */
  function ProfitabilityVerdict(roe: real, roa: real, opMargin: real, netMargin: real): (p: Part<QuantTag>)
    ensures 0 <= p.score <= 25
  {
    Capped(Then(Then(Then(RoeRung(roe), RoaRung(roa)), OperatingMarginRung(opMargin)),
                NetMarginRung(netMargin)), 25)
  }

  /** The profitability verdict `analyze_profitability` returns for `info`. */
  function ProfitabilityOf(info: QuantInfo): Part<QuantTag>
  {
    ProfitabilityVerdict(Percent(info, "returnOnEquity"), Percent(info, "returnOnAssets"),
                         Percent(info, "operatingMargins"), Percent(info, "profitMargins"))
  }

  // ---------------------------------------------------------------------
  // Growth (max 25): revenue 10 + earnings 8 + quarterly EPS 7
  // ---------------------------------------------------------------------

  function RevenueGrowthRung(g: real): (p: Part<QuantTag>)
    ensures 0 <= p.score <= 10 && |p.risks| <= 1
  {
    if g >= 30.0 then Signal(10, RevenueHighGrowth)
    else if g >= 15.0 then Signal(8, RevenueGrowing)
    else if g >= 5.0 then Signal(5, RevenueSteady)
    else if g > 0.0 then Points(2)
    else Risk(0, RevenueDecline)
  }

  function EarningsGrowthRung(g: real): (p: Part<QuantTag>)
    ensures 0 <= p.score <= 8 && |p.risks| <= 1
  {
    if g >= 30.0 then Signal(8, EarningsHighGrowth)
    else if g >= 15.0 then Signal(6, EarningsGrowing)
    else if g >= 5.0 then Points(3)
    else if g > 0.0 then Points(1)
    else Risk(0, EarningsDecline)
  }

  function EpsGrowthRung(g: real): (p: Part<QuantTag>)
    ensures 0 <= p.score <= 7 && |p.risks| <= 1
  {
    if g >= 25.0 then Signal(7, EpsHighGrowth)
    else if g >= 10.0 then Signal(5, EpsGrowing)
    else if g > 0.0 then Points(2)
    else Risk(0, EpsDecline)
  }

  /** The growth ladders in order, clamped at 25. */
  function GrowthVerdict(revenue: real, earnings: real, eps: real): (p: Part<QuantTag>)
    ensures 0 <= p.score <= 25
  {
    Capped(Then(Then(RevenueGrowthRung(revenue), EarningsGrowthRung(earnings)), EpsGrowthRung(eps)), 25)
  }

  /** The growth verdict `analyze_growth` returns for `info`. */
  function GrowthOf(info: QuantInfo): Part<QuantTag>
  {
    GrowthVerdict(Percent(info, "revenueGrowth"), Percent(info, "earningsGrowth"),
                  Percent(info, "earningsQuarterlyGrowth"))
  }

  // ---------------------------------------------------------------------
  // Stability (max 25): debt-to-equity 10 + current ratio 8 + cash flow 7
  // ---------------------------------------------------------------------

  /** The debt ladder is inverted: less debt scores more. */
  function DebtToEquityRung(de: real): (p: Part<QuantTag>)
    ensures 0 <= p.score <= 10 && |p.risks| <= 1
  {
    if de <= 50.0 then Signal(10, DebtExcellent)
    else if de <= 100.0 then Signal(7, DebtGood)
    else if de <= 150.0 then Signal(4, DebtFair)
    else if de <= 200.0 then Risk(2, DebtHigh)
    else Risk(0, DebtExcessive)
  }

  function CurrentRatioRung(cr: real): (p: Part<QuantTag>)
    ensures 0 <= p.score <= 8 && |p.risks| <= 1
  {
    if cr >= 2.0 then Signal(8, LiquidityExcellent)
    else if cr >= 1.5 then Signal(6, LiquidityGood)
    else if cr >= 1.0 then Points(3)
    else Risk(0, LiquidityShort)
  }

  /** Operating cash flow as a percentage of revenue, 0 when revenue is not positive. */
  function CashFlowMargin(operatingCf: real, totalRevenue: real): (m: real)
    ensures totalRevenue <= 0.0 ==> m == 0.0
    ensures totalRevenue > 0.0 ==> m * totalRevenue == operatingCf * 100.0
  {
    if totalRevenue > 0.0 then (operatingCf / totalRevenue) * 100.0 else 0.0
  }

  function CashFlowRung(m: real): (p: Part<QuantTag>)
    ensures 0 <= p.score <= 7 && |p.risks| <= 1
  {
    if m >= 15.0 then Signal(7, CashExcellent)
    else if m >= 8.0 then Signal(5, CashGood)
    else if m > 0.0 then Points(2)
    else Risk(0, CashFlowPoor)
  }

  function DebtToEquity(info: QuantInfo): real { MetricOf(info, "debtToEquity", 100.0) }
  function CurrentRatio(info: QuantInfo): real { MetricOf(info, "currentRatio", 1.0) }
  function CashFlowMarginOf(info: QuantInfo): real
  {
    CashFlowMargin(MetricOf(info, "operatingCashflow", 0.0), MetricOf(info, "totalRevenue", 1.0))
  }

  /** The stability ladders in order, clamped at 25. */
  function StabilityVerdict(de: real, cr: real, cfMargin: real): (p: Part<QuantTag>)
    ensures 0 <= p.score <= 25
  {
    Capped(Then(Then(DebtToEquityRung(de), CurrentRatioRung(cr)), CashFlowRung(cfMargin)), 25)
  }

  /** The stability verdict `analyze_stability` returns for `info`. */
  function StabilityOf(info: QuantInfo): Part<QuantTag>
  {
    StabilityVerdict(DebtToEquity(info), CurrentRatio(info), CashFlowMarginOf(info))
  }

  // ---------------------------------------------------------------------
  // Valuation (max 25): PER 8 + PBR 6 + PEG 6 + EV/EBITDA 5
  // ---------------------------------------------------------------------

  /** PER: the band [8, 15] scores best; a PER below 8 is suspected of being a value trap. */
  function PerRung(pe: real): (p: Part<QuantTag>)
    ensures 0 <= p.score <= 8 && |p.risks| <= 1
  {
    if 8.0 <= pe <= 15.0 then Signal(8, PerVeryAttractive)
    else if pe < 8.0 then Signal(6, PerSuspectedTrap)
    else if pe <= 20.0 then Signal(5, PerFair)
    else if pe <= 30.0 then Risk(2, PerSomewhatHigh)
    else Risk(0, PerOvervalued)
  }

  function PbrRung(pb: real): (p: Part<QuantTag>)
    ensures 0 <= p.score <= 6 && |p.risks| <= 1
  {
    if pb <= 1.0 then Signal(6, PbrUndervalued)
    else if pb <= 1.5 then Signal(5, PbrAttractive)
    else if pb <= 2.5 then Points(3)
    else if pb <= 4.0 then Risk(1, PbrHigh)
    else Risk(0, PbrOverpriced)
  }

  /** PEG: only (0, 1] scores 6; a non-positive PEG falls through to the 1.5 band. */
  function PegRung(peg: real): (p: Part<QuantTag>)
    ensures 0 <= p.score <= 6 && |p.risks| <= 1
  {
    if 0.0 < peg <= 1.0 then Signal(6, PegExcellent)
    else if peg <= 1.5 then Signal(4, PegGood)
    else if peg <= 2.0 then Points(2)
    else Risk(0, PegHigh)
  }

  function EvEbitdaRung(ev: real): (p: Part<QuantTag>)
    ensures 0 <= p.score <= 5 && |p.risks| <= 1
  {
    if ev <= 6.0 then Signal(5, EvAttractive)
    else if ev <= 10.0 then Signal(4, EvFair)
    else if ev <= 15.0 then Points(2)
    else Risk(0, EvHigh)
  }

  function Per(info: QuantInfo): real { MetricOf(info, "trailingPE", 20.0) }
  function ForwardPer(info: QuantInfo): real { MetricOf(info, "forwardPE", Per(info)) }
  function Pbr(info: QuantInfo): real { MetricOf(info, "priceToBook", 2.0) }
  function Peg(info: QuantInfo): real { MetricOf(info, "pegRatio", 2.0) }
  function EvEbitda(info: QuantInfo): real { MetricOf(info, "enterpriseToEbitda", 12.0) }

  /** The valuation ladders in order, clamped at 25. */
  function ValuationVerdict(pe: real, pb: real, peg: real, ev: real): (p: Part<QuantTag>)
    ensures 0 <= p.score <= 25
  {
    Capped(Then(Then(Then(PerRung(pe), PbrRung(pb)), PegRung(peg)), EvEbitdaRung(ev)), 25)
  }

  /** The valuation verdict `analyze_valuation` returns for `info`. */
  function ValuationOf(info: QuantInfo): Part<QuantTag>
  {
    ValuationVerdict(Per(info), Pbr(info), Peg(info), EvEbitda(info))
  }

  // ---------------------------------------------------------------------
  // Peer tier and the whole report
  // ---------------------------------------------------------------------

  /** The four keys `analyze` stores in `scores`: "profitability", "growth", "stability", "valuation". */
  datatype Dimension = Profitability | Growth | Stability | Valuation

  /** `get_peer_comparison`'s ladder on the sum of the stored sub-scores. */
  function PeerTier(total: int): (t: string)
    ensures t == "상위" <==> total >= 80
    ensures t == "중상위" <==> 60 <= total < 80
    ensures t == "중위" <==> 40 <= total < 60
    ensures t == "하위" <==> total < 40
  {
    if total >= 80 then "상위"
    else if total >= 60 then "중상위"
    else if total >= 40 then "중위"
    else "하위"
  }

  /** `info.get(key, 'Unknown')` for the text entries. */
  function TextOr(t: Option<string>): string
  {
    match t
    case Some(s) => s
    case None => "Unknown"
  }

  /** The derived percentages `analyze` reports as `key_metrics` (before rounding). */
  function KeyMetrics(info: QuantInfo): map<string, real>
  {
    map["ROE" := Percent(info, "returnOnEquity"),
        "ROA" := Percent(info, "returnOnAssets"),
        "PER" := Per(info),
        "PBR" := Pbr(info),
        "PEG" := Peg(info),
        "RevenueGrowth" := Percent(info, "revenueGrowth"),
        "DebtToEquity" := DebtToEquity(info)]
  }

  /** The text fields of the result: sector, industry and the peer tier of the total. */
  function QuantLabels(info: QuantInfo, total: int): (m: map<string, string>)
    ensures "peer_comparison" in m && m["peer_comparison"] == PeerTier(total)
  {
    map["sector" := TextOr(info.sector), "industry" := TextOr(info.industry),
        "peer_comparison" := PeerTier(total)]
  }

  /** The result record built from the four verdicts; the peer tier follows the total. */
  function Assemble(info: QuantInfo, p: Part<QuantTag>, g: Part<QuantTag>, s: Part<QuantTag>, v: Part<QuantTag>): (r: AgentReport)
    requires 0 <= p.score <= 25 && 0 <= g.score <= 25 && 0 <= s.score <= 25 && 0 <= v.score <= 25
    ensures r.Report? && r.breakdown == [p.score, g.score, s.score, v.score]
    ensures 0 <= r.total <= 100 && r.rec == Recommend(r.total)
    ensures "peer_comparison" in r.labels && r.labels["peer_comparison"] == PeerTier(r.total)
  {
    Level1Report(p, g, s, v, QuantLabel, QuantLabels(info, p.score + g.score + s.score + v.score), KeyMetrics(info))
  }

  /** The result record `analyze` returns once `info` has been fetched. */
  function QuantReport(info: QuantInfo): (r: AgentReport)
    ensures r.Report? && r.breakdown == [ProfitabilityOf(info).score, GrowthOf(info).score,
                                         StabilityOf(info).score, ValuationOf(info).score]
    ensures 0 <= r.total <= 100 && r.rec == Recommend(r.total)
  {
    Assemble(info, ProfitabilityOf(info), GrowthOf(info), StabilityOf(info), ValuationOf(info))
  }

  /** `sum(self.scores.values())`: the stored sub-scores, absent keys adding nothing. */
  function StoredSum(scores: map<Dimension, int>): int
  {
    (if Profitability in scores then scores[Profitability] else 0)
    + (if Growth in scores then scores[Growth] else 0)
    + (if Stability in scores then scores[Stability] else 0)
    + (if Valuation in scores then scores[Valuation] else 0)
  }

  // ---------------------------------------------------------------------
  // The agent object
  // ---------------------------------------------------------------------

  class QuantAnalysisAgent {
    var info: QuantInfo
    var scores: map<Dimension, int>
    var metrics: map<string, real>

    constructor ()
      ensures info == EmptyInfo && scores == map[] && metrics == map[]
    {
      info := EmptyInfo;
      scores := map[];
      metrics := map[];
    }

    /** `get_peer_comparison`: the tier of the stored sub-scores' sum. */
    function PeerComparison(): (t: string)
      reads this
      ensures scores == map[] ==> t == "하위"
      ensures t == PeerTier(StoredSum(scores))
    {
      PeerTier(StoredSum(scores))
    }

    /** `analyze_profitability`: the verdict, recording the four percentages in `metrics`. */
    method AnalyzeProfitability() returns (p: Part<QuantTag>)
      modifies this`metrics
      ensures p == ProfitabilityOf(info)
      ensures metrics == old(metrics)["ROE" := Percent(info, "returnOnEquity")]
                                     ["ROA" := Percent(info, "returnOnAssets")]
                                     ["OperatingMargin" := Percent(info, "operatingMargins")]
                                     ["NetMargin" := Percent(info, "profitMargins")]
    {
      var roe := Percent(info, "returnOnEquity");
      p := RoeRung(roe);
      metrics := metrics["ROE" := roe];
      var roa := Percent(info, "returnOnAssets");
      p := Then(p, RoaRung(roa));
      metrics := metrics["ROA" := roa];
      var opMargin := Percent(info, "operatingMargins");
      p := Then(p, OperatingMarginRung(opMargin));
      metrics := metrics["OperatingMargin" := opMargin];
      var netMargin := Percent(info, "profitMargins");
      p := Then(p, NetMarginRung(netMargin));
      metrics := metrics["NetMargin" := netMargin];
      p := Capped(p, 25);
    }

    /** `analyze_growth`: the verdict, recording the three growth percentages in `metrics`. */
    method AnalyzeGrowth() returns (p: Part<QuantTag>)
      modifies this`metrics
      ensures p == GrowthOf(info)
      ensures metrics == old(metrics)["RevenueGrowth" := Percent(info, "revenueGrowth")]
                                     ["EarningsGrowth" := Percent(info, "earningsGrowth")]
                                     ["EPSGrowth" := Percent(info, "earningsQuarterlyGrowth")]
    {
      var revenueGrowth := Percent(info, "revenueGrowth");
      p := RevenueGrowthRung(revenueGrowth);
      metrics := metrics["RevenueGrowth" := revenueGrowth];
      var earningsGrowth := Percent(info, "earningsGrowth");
      p := Then(p, EarningsGrowthRung(earningsGrowth));
      metrics := metrics["EarningsGrowth" := earningsGrowth];
      var epsGrowth := Percent(info, "earningsQuarterlyGrowth");
      p := Then(p, EpsGrowthRung(epsGrowth));
      metrics := metrics["EPSGrowth" := epsGrowth];
      p := Capped(p, 25);
    }

    /** `analyze_stability`: the verdict, recording D/E, current ratio and cash-flow margin. */
    method AnalyzeStability() returns (p: Part<QuantTag>)
      modifies this`metrics
      ensures p == StabilityOf(info)
      ensures metrics == old(metrics)["DebtToEquity" := DebtToEquity(info)]
                                     ["CurrentRatio" := CurrentRatio(info)]
                                     ["CFMargin" := CashFlowMarginOf(info)]
    {
      var debtToEquity := DebtToEquity(info);
      p := DebtToEquityRung(debtToEquity);
      metrics := metrics["DebtToEquity" := debtToEquity];
      var currentRatio := CurrentRatio(info);
      p := Then(p, CurrentRatioRung(currentRatio));
      metrics := metrics["CurrentRatio" := currentRatio];
      var cfMargin := CashFlowMarginOf(info);
      p := Then(p, CashFlowRung(cfMargin));
      metrics := metrics["CFMargin" := cfMargin];
      p := Capped(p, 25);
    }

    /** `analyze_valuation`: the verdict, recording PER, forward PER, PBR, PEG and EV/EBITDA. */
    method AnalyzeValuation() returns (p: Part<QuantTag>)
      modifies this`metrics
      ensures p == ValuationOf(info)
      ensures metrics == old(metrics)["PER" := Per(info)]["ForwardPER" := ForwardPer(info)]
                                     ["PBR" := Pbr(info)]["PEG" := Peg(info)]
                                     ["EVEBITDA" := EvEbitda(info)]
    {
      var peRatio := Per(info);
      var forwardPe := ForwardPer(info);
      p := PerRung(peRatio);
      metrics := metrics["PER" := peRatio]["ForwardPER" := forwardPe];
      var pbRatio := Pbr(info);
      p := Then(p, PbrRung(pbRatio));
      metrics := metrics["PBR" := pbRatio];
      var peg := Peg(info);
      p := Then(p, PegRung(peg));
      metrics := metrics["PEG" := peg];
      var evEbitda := EvEbitda(info);
      p := Then(p, EvEbitdaRung(evEbitda));
      metrics := metrics["EVEBITDA" := evEbitda];
      p := Capped(p, 25);
    }

    /**
     * `analyze`: on a failed fetch the error record; otherwise the four
     * dimensions in order, each sub-score stored in `scores`, and the report.
     */
    method Analyze(fetched: Option<QuantInfo>) returns (r: AgentReport)
      modifies this
      ensures fetched.None? ==> r == FetchFailed && info == old(info) && scores == old(scores)
      ensures fetched.Some? ==> info == fetched.value && r == QuantReport(info)
      ensures fetched.Some? ==> scores == old(scores)[Profitability := ProfitabilityOf(info).score]
                                                    [Growth := GrowthOf(info).score]
                                                    [Stability := StabilityOf(info).score]
                                                    [Valuation := ValuationOf(info).score]
    {
      if fetched.None? {
        return FetchFailed;
      }
      info := fetched.value;

      var profitability := AnalyzeProfitability();
      scores := scores[Profitability := profitability.score];
      var growth := AnalyzeGrowth();
      scores := scores[Growth := growth.score];
      var stability := AnalyzeStability();
      scores := scores[Stability := stability.score];
      var valuation := AnalyzeValuation();
      scores := scores[Valuation := valuation.score];
      r := Assemble(info, profitability, growth, stability, valuation);
    }
  }

  // ---------------------------------------------------------------------
  // Properties of the scoring
  // ---------------------------------------------------------------------

  /** The profitability ladders: each band's points, and a risk exactly for a non-positive figure. */
  lemma ProfitabilityBands(roe: real, roa: real, op: real, net: real)
    ensures 0 <= RoeRung(roe).score <= 8 && (RoeRung(roe).score == 8 <==> roe >= 20.0)
    ensures RoeRung(roe).risks != [] <==> roe <= 0.0
    ensures RoeRung(roe).risks != [] <==> RoeRung(roe).score == 0
    ensures 0 <= RoaRung(roa).score <= 5 && (RoaRung(roa).score == 5 <==> roa >= 10.0)
    ensures RoaRung(roa).risks != [] <==> roa <= 0.0
    ensures RoaRung(roa).risks != [] <==> RoaRung(roa).score == 0
    ensures 0 <= OperatingMarginRung(op).score <= 6 && (OperatingMarginRung(op).score == 6 <==> op >= 20.0)
    ensures OperatingMarginRung(op).risks != [] <==> op <= 0.0
    ensures OperatingMarginRung(op).risks != [] <==> OperatingMarginRung(op).score == 0
    ensures 0 <= NetMarginRung(net).score <= 6 && (NetMarginRung(net).score == 6 <==> net >= 15.0)
    ensures NetMarginRung(net).risks != [] <==> net <= 0.0
    ensures NetMarginRung(net).risks != [] <==> NetMarginRung(net).score == 0
  {
  }

  /** The growth ladders: each band's points, and a risk exactly for non-positive growth. */
  lemma GrowthBands(revenue: real, earnings: real, eps: real)
    ensures 0 <= RevenueGrowthRung(revenue).score <= 10 && (RevenueGrowthRung(revenue).score == 10 <==> revenue >= 30.0)
    ensures RevenueGrowthRung(revenue).risks != [] <==> revenue <= 0.0
    ensures RevenueGrowthRung(revenue).risks != [] <==> RevenueGrowthRung(revenue).score == 0
    ensures 0 <= EarningsGrowthRung(earnings).score <= 8 && (EarningsGrowthRung(earnings).score == 8 <==> earnings >= 30.0)
    ensures EarningsGrowthRung(earnings).risks != [] <==> earnings <= 0.0
    ensures EarningsGrowthRung(earnings).risks != [] <==> EarningsGrowthRung(earnings).score == 0
    ensures 0 <= EpsGrowthRung(eps).score <= 7 && (EpsGrowthRung(eps).score == 7 <==> eps >= 25.0)
    ensures EpsGrowthRung(eps).risks != [] <==> eps <= 0.0
    ensures EpsGrowthRung(eps).risks != [] <==> EpsGrowthRung(eps).score == 0
  {
  }

  /** The stability ladders; D/E above 150 is a risk even though 150-200 still scores 2. */
  lemma StabilityBands(de: real, cr: real, cf: real)
    ensures 0 <= DebtToEquityRung(de).score <= 10 && (DebtToEquityRung(de).score == 10 <==> de <= 50.0)
    ensures DebtToEquityRung(de).score == 0 <==> de > 200.0
    ensures DebtToEquityRung(de).risks != [] <==> de > 150.0
    ensures 0 <= CurrentRatioRung(cr).score <= 8 && (CurrentRatioRung(cr).score == 8 <==> cr >= 2.0)
    ensures CurrentRatioRung(cr).risks != [] <==> cr < 1.0
    ensures CurrentRatioRung(cr).risks != [] <==> CurrentRatioRung(cr).score == 0
    ensures 0 <= CashFlowRung(cf).score <= 7 && (CashFlowRung(cf).score == 7 <==> cf >= 15.0)
    ensures CashFlowRung(cf).risks != [] <==> cf <= 0.0
    ensures CashFlowRung(cf).risks != [] <==> CashFlowRung(cf).score == 0
  {
  }

  /** The valuation ladders; a non-positive PEG scores 4, like a PEG in (1, 1.5]. */
  lemma ValuationBands(pe: real, pb: real, peg: real, ev: real)
    ensures 0 <= PerRung(pe).score <= 8 && (PerRung(pe).score == 8 <==> 8.0 <= pe <= 15.0)
    ensures PerRung(pe).score == 0 <==> pe > 30.0
    ensures PerRung(pe).risks != [] <==> pe > 20.0
    ensures 0 <= PbrRung(pb).score <= 6 && (PbrRung(pb).score == 6 <==> pb <= 1.0)
    ensures PbrRung(pb).score == 0 <==> pb > 4.0
    ensures PbrRung(pb).risks != [] <==> pb > 2.5
    ensures 0 <= PegRung(peg).score <= 6 && (PegRung(peg).score == 6 <==> 0.0 < peg <= 1.0)
    ensures PegRung(peg).score == 4 <==> (peg <= 0.0 || 1.0 < peg <= 1.5)
    ensures PegRung(peg).risks != [] <==> peg > 2.0
    ensures PegRung(peg).risks != [] <==> PegRung(peg).score == 0
    ensures 0 <= EvEbitdaRung(ev).score <= 5 && (EvEbitdaRung(ev).score == 5 <==> ev <= 6.0)
    ensures EvEbitdaRung(ev).risks != [] <==> ev > 15.0
    ensures EvEbitdaRung(ev).risks != [] <==> EvEbitdaRung(ev).score == 0
  {
  }

  // The ladders' maxima add up to exactly 25 in every dimension, so none of
  // the four `min(score, 25)` clamps ever binds.

  lemma ProfitabilityNeverClamped(roe: real, roa: real, opMargin: real, netMargin: real)
    ensures ProfitabilityVerdict(roe, roa, opMargin, netMargin).score
         == RoeRung(roe).score + RoaRung(roa).score + OperatingMarginRung(opMargin).score
          + NetMarginRung(netMargin).score
  {
    ProfitabilityBands(roe, roa, opMargin, netMargin);
  }

  lemma GrowthNeverClamped(revenue: real, earnings: real, eps: real)
    ensures GrowthVerdict(revenue, earnings, eps).score
         == RevenueGrowthRung(revenue).score + EarningsGrowthRung(earnings).score + EpsGrowthRung(eps).score
  {
    GrowthBands(revenue, earnings, eps);
  }

  lemma StabilityNeverClamped(de: real, cr: real, cfMargin: real)
    ensures StabilityVerdict(de, cr, cfMargin).score
         == DebtToEquityRung(de).score + CurrentRatioRung(cr).score + CashFlowRung(cfMargin).score
  {
    StabilityBands(de, cr, cfMargin);
  }

  lemma ValuationNeverClamped(pe: real, pb: real, peg: real, ev: real)
    ensures ValuationVerdict(pe, pb, peg, ev).score
         == PerRung(pe).score + PbrRung(pb).score + PegRung(peg).score + EvEbitdaRung(ev).score
  {
    ValuationBands(pe, pb, peg, ev);
  }

  /** Better profitability figures never score fewer points. */
  lemma ProfitabilityMonotone(roe1: real, roa1: real, op1: real, net1: real,
                              roe2: real, roa2: real, op2: real, net2: real)
    requires roe1 <= roe2 && roa1 <= roa2 && op1 <= op2 && net1 <= net2
    ensures RoeRung(roe1).score + RoaRung(roa1).score + OperatingMarginRung(op1).score + NetMarginRung(net1).score
         <= RoeRung(roe2).score + RoaRung(roa2).score + OperatingMarginRung(op2).score + NetMarginRung(net2).score
  {
  }

  /** Less debt, more liquidity and more cash flow never score fewer points. */
  lemma StabilityMonotone(de1: real, cr1: real, cf1: real, de2: real, cr2: real, cf2: real)
    requires de2 <= de1 && cr1 <= cr2 && cf1 <= cf2
    ensures DebtToEquityRung(de1).score + CurrentRatioRung(cr1).score + CashFlowRung(cf1).score
         <= DebtToEquityRung(de2).score + CurrentRatioRung(cr2).score + CashFlowRung(cf2).score
  {
  }

  // With an empty `info` every metric takes its default.

  /** With no fields at all, every metric reads as its default. */
  lemma EmptyInfoDefaults()
    ensures forall key, d :: MetricOf(EmptyInfo, key, d) == d
    ensures forall key :: Percent(EmptyInfo, key) == 0.0
  {
  }

  /** Each profitability ladder bottoms out at a non-positive figure. */
  lemma ProfitabilityRungsAllPoor(roe: real, roa: real, op: real, net: real)
    requires roe <= 0.0 && roa <= 0.0 && op <= 0.0 && net <= 0.0
    ensures RoeRung(roe) == Risk(0, RoePoor) && RoaRung(roa) == Risk(0, RoaPoor)
    ensures OperatingMarginRung(op) == Risk(0, OpMarginPoor) && NetMarginRung(net) == Risk(0, NetMarginDeficit)
  {
  }

  /** Non-positive profitability figures score nothing ... */
  lemma ProfitabilityAllPoorScore(roe: real, roa: real, op: real, net: real)
    requires roe <= 0.0 && roa <= 0.0 && op <= 0.0 && net <= 0.0
    ensures ProfitabilityVerdict(roe, roa, op, net).score == 0
  {
    ProfitabilityRungsAllPoor(roe, roa, op, net);
  }

  /** ... and record a risk per ladder. */
  lemma ProfitabilityAllPoorRisks(roe: real, roa: real, op: real, net: real)
    requires roe <= 0.0 && roa <= 0.0 && op <= 0.0 && net <= 0.0
    ensures |ProfitabilityVerdict(roe, roa, op, net).risks| == 4
  {
    ProfitabilityRungsAllPoor(roe, roa, op, net);
  }

  /** Profitability of an empty `info`: every ratio counts as 0. */
  lemma EmptyInfoProfitability()
    ensures ProfitabilityOf(EmptyInfo).score == 0 && |ProfitabilityOf(EmptyInfo).risks| == 4
  {
    EmptyInfoDefaults();
    var roe, roa := Percent(EmptyInfo, "returnOnEquity"), Percent(EmptyInfo, "returnOnAssets");
    var op, net := Percent(EmptyInfo, "operatingMargins"), Percent(EmptyInfo, "profitMargins");
    ProfitabilityAllPoorScore(roe, roa, op, net);
    ProfitabilityAllPoorRisks(roe, roa, op, net);
  }

  /** Each growth ladder bottoms out at a non-positive rate. */
  lemma GrowthRungsAllDecline(revenue: real, earnings: real, eps: real)
    requires revenue <= 0.0 && earnings <= 0.0 && eps <= 0.0
    ensures RevenueGrowthRung(revenue) == Risk(0, RevenueDecline)
    ensures EarningsGrowthRung(earnings) == Risk(0, EarningsDecline) && EpsGrowthRung(eps) == Risk(0, EpsDecline)
  {
  }

  /** Non-positive growth rates score nothing ... */
  lemma GrowthAllDeclineScore(revenue: real, earnings: real, eps: real)
    requires revenue <= 0.0 && earnings <= 0.0 && eps <= 0.0
    ensures GrowthVerdict(revenue, earnings, eps).score == 0
  {
    GrowthRungsAllDecline(revenue, earnings, eps);
  }

  /** ... and record a risk per ladder. */
  lemma GrowthAllDeclineRisks(revenue: real, earnings: real, eps: real)
    requires revenue <= 0.0 && earnings <= 0.0 && eps <= 0.0
    ensures |GrowthVerdict(revenue, earnings, eps).risks| == 3
  {
    GrowthRungsAllDecline(revenue, earnings, eps);
  }

  /** Growth of an empty `info`: all three rates count as 0. */
  lemma EmptyInfoGrowth()
    ensures GrowthOf(EmptyInfo).score == 0 && |GrowthOf(EmptyInfo).risks| == 3
  {
    EmptyInfoDefaults();
    var revenue, earnings := Percent(EmptyInfo, "revenueGrowth"), Percent(EmptyInfo, "earningsGrowth");
    var eps := Percent(EmptyInfo, "earningsQuarterlyGrowth");
    GrowthAllDeclineScore(revenue, earnings, eps);
    GrowthAllDeclineRisks(revenue, earnings, eps);
  }

  /** The stability defaults: D/E 100 gives 7, current ratio 1.0 gives 3, a zero cash-flow margin 0. */
  lemma StabilityAtDefaults()
    ensures StabilityVerdict(100.0, 1.0, 0.0).score == 10
  {
  }

  /** Stability of an empty `info`: the three defaults. */
  lemma EmptyInfoStability()
    ensures StabilityOf(EmptyInfo).score == 10
  {
    EmptyInfoDefaults();
    assert DebtToEquity(EmptyInfo) == 100.0 && CurrentRatio(EmptyInfo) == 1.0;
    assert CashFlowMarginOf(EmptyInfo) == 0.0;
    StabilityAtDefaults();
  }

  /** The valuation defaults: PER 20, PBR 2, PEG 2 and EV/EBITDA 12 give 5 + 3 + 2 + 2. */
  lemma ValuationAtDefaults()
    ensures ValuationVerdict(20.0, 2.0, 2.0, 12.0).score == 12
  {
  }

  /** Valuation of an empty `info`: the four defaults. */
  lemma EmptyInfoValuation()
    ensures ValuationOf(EmptyInfo).score == 12
  {
    EmptyInfoDefaults();
    assert Per(EmptyInfo) == 20.0 && Pbr(EmptyInfo) == 2.0;
    assert Peg(EmptyInfo) == 2.0 && EvEbitda(EmptyInfo) == 12.0;
    ValuationAtDefaults();
  }

  /** An empty `info` therefore totals 22, a SELL in the 하위 tier. */
  lemma EmptyInfoReport()
    ensures QuantReport(EmptyInfo).total == 22 && QuantReport(EmptyInfo).rec == Sell
    ensures QuantReport(EmptyInfo).labels["peer_comparison"] == "하위"
  {
    EmptyInfoProfitability();
    EmptyInfoGrowth();
    EmptyInfoStability();
    EmptyInfoValuation();
  }

  /**
   * Once `analyze` has stored the four sub-scores, whatever was stored
   * before, their sum is the report's total, so `get_peer_comparison`
   * agrees with the report's peer tier.
   */
  lemma StoredSumAfterAnalyze(before: map<Dimension, int>, p: int, g: int, s: int, v: int)
    ensures StoredSum(before[Profitability := p][Growth := g][Stability := s][Valuation := v]) == p + g + s + v
  {
  }
}
