// QUAL_001: the qualitative Level-1 analyst.  It scores the business model,
// management, the industry outlook and risk management out of 25 each from
// yfinance's `info` dictionary and rates the economic moat.
module QualitativeAgent {
  import opened Common
  import opened MarketData

  /** The numeric `info` keys the agent reads, one constructor per key. */
  datatype InfoKey =
    | MarketCap | GrossMargins | OperatingMargins | RevenuePerShare
    | DividendYield | PayoutRatio | HeldPercentInsiders | HeldPercentInstitutions | FullTimeEmployees
    | Beta | DebtToEquity | RevenueGrowth | CurrentRatio

  /**
   * The fetched `info` dictionary: its numeric entries and its text entries.
   * A numeric entry is a float, which may be NaN, or None (Python's None,
   * which yfinance stores for a field it has no value for).
   */
  datatype QualInfo = QualInfo(numbers: map<InfoKey, Option<Float>>, texts: map<string, string>)

  const EmptyInfo: QualInfo := QualInfo(map[], map[])

  /** A numeric entry holding None: arithmetic or a comparison on it raises TypeError. */
  predicate StoredNone(info: QualInfo, key: InfoKey)
  {
    key in info.numbers && info.numbers[key].None?
  }

  /** `get_info(key, default)` on a numeric entry that does not hold None. */
  function NumberOr(info: QualInfo, key: InfoKey, default: real): (x: Float)
    requires !StoredNone(info, key)
    ensures key !in info.numbers ==> x == Fin(default)
    ensures key in info.numbers ==> info.numbers[key] == Some(x)
  {
    if key in info.numbers then info.numbers[key].value else Fin(default)
  }

  /** `x * 100` on a float; NaN stays NaN. */
  function Hundredfold(x: Float): (r: Float)
    ensures r.Fin? <==> x.Fin?
    ensures r.Fin? ==> r.v == x.v * 100.0
  {
    if x.Fin? then Fin(x.v * 100.0) else NaN
  }

  /** A fraction entry turned into percent (`get_info(key, 0) * 100`). */
  function PercentOf(info: QualInfo, key: InfoKey): Float
    requires !StoredNone(info, key)
  {
    Hundredfold(NumberOr(info, key, 0.0))
  }

  /** `get_info(key, default)` on a text entry. */
  function TextOr(info: QualInfo, key: string, default: string): (r: string)
    ensures key !in info.texts ==> r == default
    ensures key in info.texts ==> r == info.texts[key]
  {
    if key in info.texts then info.texts[key] else default
  }

  /** The labels the qualitative ladders emit, one constructor per label. */
  datatype QualTag =
    | MarketDominant | LargeCompany | UpperMidCompany | MidCompany | SmallCompany
    | Diversified | CoreComponents | FinancialFranchise | Specialist
    | HighValueAdded | SoundMargin | StandardMargin | LowMargin
    | ResearchActive
    | HighDividend | StrongDividend | FairDividend | SomeDividend | NoDividend
    | RoomyPayout | HighPayout
    | InsiderStake | InstitutionsActive | InstitutionsLow
    | LargeEmployer | MidEmployer
    | GrowthIndustry | MatureIndustry | DefensiveIndustry | OtherIndustry
    | AdvancedTechnology | ElectronicsTechnology | FintechShift | TraditionalIndustry
    | GrowthBeta | MarketBeta | DefensiveBeta | LowVolatility
    | VeryVolatile | Volatile | MarketVolatility | StableBeta
    | HighDebt | DebtCaution | DebtManaged
    | RevenueFalling | RevenueFlat | RevenueGrowing
    | LiquidityDanger | LiquidityShort | LiquidityFine

  /** The label text of a tag (the source appends the formatted figure to some). */
  function QualLabel(t: QualTag): string
  {
    match t
    case MarketDominant => "시장지배적 기업"
    case LargeCompany => "대형 기업"
    case UpperMidCompany => "중대형 기업"
    case MidCompany => "중형 기업"
    case SmallCompany => "소형 기업 (규모 리스크)"
    case Diversified => "다각화된 사업"
    case CoreComponents => "핵심 부품 사업"
    case FinancialFranchise => "금융 프랜차이즈"
    case Specialist => "전문 사업"
    case HighValueAdded => "고부가가치 비즈니스"
    case SoundMargin => "양호한 마진"
    case StandardMargin => "표준 마진"
    case LowMargin => "낮은 마진"
    case ResearchActive => "R&D 활동 확인"
    case HighDividend => "고배당"
    case StrongDividend => "배당 우수"
    case FairDividend => "배당 양호"
    case SomeDividend => "배당 있음"
    case NoDividend => "배당 없음"
    case RoomyPayout => "여력있는 배당성향"
    case HighPayout => "높은 배당성향"
    case InsiderStake => "적정 남부 지분"
    case InstitutionsActive => "기관 투자 활발"
    case InstitutionsLow => "기관 관심 저조"
    case LargeEmployer => "대규모 고용"
    case MidEmployer => "중견 고용"
    case GrowthIndustry => "고성장 산업"
    case MatureIndustry => "성숙 산업"
    case DefensiveIndustry => "방어적 산업"
    case OtherIndustry => "기타 산업"
    case AdvancedTechnology => "첨단기술 산업"
    case ElectronicsTechnology => "전자기술 산업"
    case FintechShift => "핀테크 전환 중"
    case TraditionalIndustry => "전통 산업"
    case GrowthBeta => "성장주 특성"
    case MarketBeta => "시장 수익률"
    case DefensiveBeta => "방어적"
    case LowVolatility => "저변동성"
    case VeryVolatile => "고변동성"
    case Volatile => "변동성 높음"
    case MarketVolatility => "시장 수준 변동성"
    case StableBeta => "안정적"
    case HighDebt => "높은 부채비율"
    case DebtCaution => "부채 주의"
    case DebtManaged => "부채 관리 양호"
    case RevenueFalling => "매출 감소"
    case RevenueFlat => "매출 정체"
    case RevenueGrowing => "매출 성장 중"
    case LiquidityDanger => "유동성 위험"
    case LiquidityShort => "유동성 부족"
    case LiquidityFine => "유동성 양호"
  }


  // ---------------------------------------------------------------------
  // Business model (at most 25; in fact 5 to 23)
  // ---------------------------------------------------------------------

  /** Market capitalisation in won: 100조, 50조, 10조 and 1조 thresholds; NaN is small. */
  function MarketCapRung(cap: Float): (p: Part<QualTag>)
    ensures 1 <= p.score <= 8
    ensures p.risks != [] <==> !Ge(cap, Fin(1_000_000_000_000.0))
  {
    if Ge(cap, Fin(100_000_000_000_000.0)) then Signal(8, MarketDominant)
    else if Ge(cap, Fin(50_000_000_000_000.0)) then Signal(7, LargeCompany)
    else if Ge(cap, Fin(10_000_000_000_000.0)) then Signal(5, UpperMidCompany)
    else if Ge(cap, Fin(1_000_000_000_000.0)) then Signal(3, MidCompany)
    else Risk(1, SmallCompany)
  }

  /** `sector in ['Conglomerates', 'Industrials', 'Technology']`. */
  predicate DiversifiedSector(sector: string)
  {
    sector == "Conglomerates" || sector == "Industrials" || sector == "Technology"
  }

  /** Diversification: a diversified sector, else components or finance read from the lowered industry. */
  function DiversificationRung(sector: string, industry: string): (p: Part<QualTag>)
    ensures 3 <= p.score <= 6 && p.risks == []
  {
    var lowered := Lower(industry);
    if DiversifiedSector(sector) then Signal(6, Diversified)
    else if Contains(lowered, "semiconductor") || Contains(lowered, "electronics") then Signal(5, CoreComponents)
    else if Contains(lowered, "bank") || Contains(lowered, "financial") then Signal(5, FinancialFranchise)
    else Signal(3, Specialist)
  }

  /** Gross margin in percent. */
  function GrossMarginRung(gm: Float): (p: Part<QualTag>)
    ensures 1 <= p.score <= 7
    ensures p.risks != [] <==> !Ge(gm, Fin(15.0))
  {
    if Ge(gm, Fin(50.0)) then Signal(7, HighValueAdded)
    else if Ge(gm, Fin(30.0)) then Signal(5, SoundMargin)
    else if Ge(gm, Fin(15.0)) then Signal(3, StandardMargin)
    else Risk(1, LowMargin)
  }

  /** Two points when `revenuePerShare`, read as R&D activity, is positive. */
  function ResearchRung(revenuePerShare: Float): (p: Part<QualTag>)
    ensures 0 <= p.score <= 2 && p.risks == []
    ensures p.score == 2 <==> Gt(revenuePerShare, Fin(0.0))
  {
    When(Gt(revenuePerShare, Fin(0.0)), Signal(2, ResearchActive))
  }

  /** The business-model ladders in order, clamped at 25. */
  function BusinessModelVerdict(cap: Float, sector: string, industry: string, gm: Float, revenuePerShare: Float): (p: Part<QualTag>)
    ensures 5 <= p.score <= 23
  {
    Capped(Then(Then(Then(MarketCapRung(cap), DiversificationRung(sector, industry)),
                     GrossMarginRung(gm)), ResearchRung(revenuePerShare)), 25)
  }

  function Sector(info: QualInfo): string { TextOr(info, "sector", "") }
  function Industry(info: QualInfo): string { TextOr(info, "industry", "") }

  /** The numeric entries `analyze_business_model` reads; a None in any of them raises. */
  predicate BusinessModelNone(info: QualInfo)
  {
    StoredNone(info, MarketCap) || StoredNone(info, GrossMargins) || StoredNone(info, RevenuePerShare)
  }

  /** `analyze_business_model` for `info`: TypeError on a None entry, else the verdict. */
  function BusinessModelOf(info: QualInfo): (o: Outcome<Part<QualTag>>)
    ensures o.Raised? <==> BusinessModelNone(info)
    ensures o.Raised? ==> o.error == TypeError
    ensures o.Done? ==> 5 <= o.value.score <= 23
  {
    if BusinessModelNone(info) then Raised(TypeError)
    else Done(BusinessModelVerdict(NumberOr(info, MarketCap, 0.0), Sector(info), Industry(info),
                                   PercentOf(info, GrossMargins), NumberOr(info, RevenuePerShare, 0.0)))
  }

  // ---------------------------------------------------------------------
  // Management (at most 25)
  // ---------------------------------------------------------------------

  /** Dividend yield in percent. */
  function DividendRung(dividendYield: Float): (p: Part<QualTag>)
    ensures 0 <= p.score <= 10
    ensures p.risks != [] <==> !Gt(dividendYield, Fin(0.0))
  {
    if Ge(dividendYield, Fin(3.0)) then Signal(10, HighDividend)
    else if Ge(dividendYield, Fin(2.0)) then Signal(8, StrongDividend)
    else if Ge(dividendYield, Fin(1.0)) then Signal(5, FairDividend)
    else if Gt(dividendYield, Fin(0.0)) then Signal(3, SomeDividend)
    else Risk(0, NoDividend)
  }

  /** Payout ratio in percent: 5 points strictly between 0 and 60, 3 from 60 up. */
  function PayoutRung(payout: Float): (p: Part<QualTag>)
    ensures 0 <= p.score <= 5 && p.risks == []
    ensures p.score == 0 <==> !Gt(payout, Fin(0.0))
  {
    if Gt(payout, Fin(0.0)) && Lt(payout, Fin(60.0)) then Signal(5, RoomyPayout)
    else if Ge(payout, Fin(60.0)) then Signal(3, HighPayout)
    else Points(0)
  }

  /** Insider holdings in percent: 3 points between 10 and 40 inclusive. */
  function InsiderRung(insiders: Float): (p: Part<QualTag>)
    ensures 0 <= p.score <= 3 && p.risks == []
    ensures p.score == 3 <==> Le(Fin(10.0), insiders) && Le(insiders, Fin(40.0))
  {
    When(Le(Fin(10.0), insiders) && Le(insiders, Fin(40.0)), Signal(3, InsiderStake))
  }

  /** Institutional holdings in percent: 3 points from 30 up, a risk below 10. */
  function InstitutionRung(institutions: Float): (p: Part<QualTag>)
    ensures 0 <= p.score <= 3
    ensures p.risks != [] <==> Lt(institutions, Fin(10.0))
  {
    if Ge(institutions, Fin(30.0)) then Signal(3, InstitutionsActive)
    else if Lt(institutions, Fin(10.0)) then Risk(0, InstitutionsLow)
    else Points(0)
  }

  /** Full-time employees: 4 points above 10000, 2 above 1000. */
  function EmployeesRung(employees: Float): (p: Part<QualTag>)
    ensures 0 <= p.score <= 4 && p.risks == []
  {
    if Gt(employees, Fin(10000.0)) then Signal(4, LargeEmployer)
    else if Gt(employees, Fin(1000.0)) then Signal(2, MidEmployer)
    else Points(0)
  }

  /** The shareholder-return part of management: dividend yield and payout ratio. */
  function ShareholderReturnRung(dividendYield: Float, payout: Float): (p: Part<QualTag>)
    ensures 0 <= p.score <= 15
  {
    Then(DividendRung(dividendYield), PayoutRung(payout))
  }

  /** The governance part of management: insiders, institutions and employees. */
  function GovernanceRung(insiders: Float, institutions: Float, employees: Float): (p: Part<QualTag>)
    ensures 0 <= p.score <= 10
  {
    Then(Then(InsiderRung(insiders), InstitutionRung(institutions)), EmployeesRung(employees))
  }

  /** The management ladders in order, before the clamp. */
  function ManagementRaw(dividendYield: Float, payout: Float, insiders: Float, institutions: Float, employees: Float): (p: Part<QualTag>)
    ensures 0 <= p.score <= 25
  {
    Then(ShareholderReturnRung(dividendYield, payout), GovernanceRung(insiders, institutions, employees))
  }

  /** The management ladders in order, clamped at 25. */
  function ManagementVerdict(dividendYield: Float, payout: Float, insiders: Float, institutions: Float, employees: Float): (p: Part<QualTag>)
    ensures 0 <= p.score <= 25
  {
    var raw := ManagementRaw(dividendYield, payout, insiders, institutions, employees);
    assert 0 <= raw.score <= 25;
    Capped(raw, 25)
  }

  /**
   * The numeric entries `analyze_management` scores; a None in any of them
   * raises.  It also reads `dividendRate`, but never uses it, so a None
   * there is harmless.
   */
  predicate ManagementNone(info: QualInfo)
  {
    StoredNone(info, DividendYield) || StoredNone(info, PayoutRatio)
    || StoredNone(info, HeldPercentInsiders) || StoredNone(info, HeldPercentInstitutions)
    || StoredNone(info, FullTimeEmployees)
  }

  /** `analyze_management` for `info`; the yield, payout and holdings are fractions turned into percent. */
  function ManagementOf(info: QualInfo): (o: Outcome<Part<QualTag>>)
    ensures o.Raised? <==> ManagementNone(info)
    ensures o.Raised? ==> o.error == TypeError
    ensures o.Done? ==> 0 <= o.value.score <= 25
  {
    if ManagementNone(info) then Raised(TypeError)
    else Done(ManagementVerdict(PercentOf(info, DividendYield), PercentOf(info, PayoutRatio),
                                PercentOf(info, HeldPercentInsiders),
                                PercentOf(info, HeldPercentInstitutions),
                                NumberOr(info, FullTimeEmployees, 0.0)))
  }

  // ---------------------------------------------------------------------
  // Industry outlook (at most 25; in fact 9 to 25, never a risk)
  // ---------------------------------------------------------------------

  /** Sector growth: growth 10, stable 7, defensive 5, any other sector 4. */
  function SectorGrowthRung(sector: string): (p: Part<QualTag>)
    ensures 4 <= p.score <= 10 && p.risks == []
  {
    if sector == "Technology" || sector == "Healthcare" || sector == "Communication Services" then Signal(10, GrowthIndustry)
    else if sector == "Financial Services" || sector == "Consumer Cyclical" then Signal(7, MatureIndustry)
    else if sector == "Consumer Defensive" || sector == "Utilities" then Signal(5, DefensiveIndustry)
    else Signal(4, OtherIndustry)
  }

  /** `any(ti in industry for ti in tech_industries)`: a case-sensitive substring test. */
  predicate TechIndustry(industry: string)
  {
    ContainsAny(industry, ["Semiconductors", "Software", "Internet Content", "Biotechnology"])
  }

  /** Technology level: high tech 8, electronics 6, banking 4, traditional 3. */
  function TechnologyRung(industry: string): (p: Part<QualTag>)
    ensures 3 <= p.score <= 8 && p.risks == []
  {
    if TechIndustry(industry) then Signal(8, AdvancedTechnology)
    else if Contains(Lower(industry), "electronics") then Signal(6, ElectronicsTechnology)
    else if Contains(Lower(industry), "bank") then Signal(4, FintechShift)
    else Signal(3, TraditionalIndustry)
  }

  /** Market position read from beta: 7, 5, 4 or 2 points. */
  function BetaPositionRung(beta: Float): (p: Part<QualTag>)
    ensures 2 <= p.score <= 7 && p.risks == []
  {
    if Ge(beta, Fin(1.2)) then Signal(7, GrowthBeta)
    else if Ge(beta, Fin(0.9)) then Signal(5, MarketBeta)
    else if Ge(beta, Fin(0.7)) then Signal(4, DefensiveBeta)
    else Signal(2, LowVolatility)
  }

  /** The industry-outlook ladders in order, clamped at 25; none of them records a risk. */
  function IndustryOutlookVerdict(sector: string, industry: string, beta: Float): (p: Part<QualTag>)
    ensures 9 <= p.score <= 25
    ensures p.risks == []
  {
    Capped(Then(Then(SectorGrowthRung(sector), TechnologyRung(industry)), BetaPositionRung(beta)), 25)
  }

  /** `analyze_industry_outlook` for `info`: TypeError on a None beta, else the verdict. */
  function IndustryOutlookOf(info: QualInfo): (o: Outcome<Part<QualTag>>)
    ensures o.Raised? <==> StoredNone(info, Beta)
    ensures o.Raised? ==> o.error == TypeError
    ensures o.Done? ==> 9 <= o.value.score <= 25 && o.value.risks == []
  {
    if StoredNone(info, Beta) then Raised(TypeError)
    else Done(IndustryOutlookVerdict(Sector(info), Industry(info), NumberOr(info, Beta, 1.0)))
  }

  // ---------------------------------------------------------------------
  // Risk factors (25 minus deductions, floored at 0)
  // ---------------------------------------------------------------------

  /** Volatility deduction: 8, 5 or 2 points, the last two thresholds recorded as a signal. */
  function BetaRiskRung(beta: Float): (p: Part<QualTag>)
    ensures -8 <= p.score <= 0
    ensures p.risks != [] <==> Ge(beta, Fin(1.2))
    ensures p.score == 0 <==> !Ge(beta, Fin(1.0))
  {
    if Ge(beta, Fin(1.5)) then Risk(-8, VeryVolatile)
    else if Ge(beta, Fin(1.2)) then Risk(-5, Volatile)
    else if Ge(beta, Fin(1.0)) then Signal(-2, MarketVolatility)
    else Signal(0, StableBeta)
  }

  /** Debt deduction on D/E in percent: 7 from 200 up, 4 from 100 up. */
  function DebtRiskRung(de: Float): (p: Part<QualTag>)
    ensures -7 <= p.score <= 0
    ensures p.risks != [] <==> Ge(de, Fin(100.0))
    ensures p.score == 0 <==> !Ge(de, Fin(100.0))
  {
    if Ge(de, Fin(200.0)) then Risk(-7, HighDebt)
    else if Ge(de, Fin(100.0)) then Risk(-4, DebtCaution)
    else if Gt(de, Fin(0.0)) then Signal(0, DebtManaged)
    else Points(0)
  }

  /** Revenue deduction on the growth fraction: 6 below -10%, 3 below 0. */
  function RevenueRiskRung(growth: Float): (p: Part<QualTag>)
    ensures -6 <= p.score <= 0
    ensures p.risks != [] <==> Lt(growth, Fin(0.0))
    ensures p.score == 0 <==> !Lt(growth, Fin(0.0))
  {
    if Lt(growth, Fin(-0.1)) then Risk(-6, RevenueFalling)
    else if Lt(growth, Fin(0.0)) then Risk(-3, RevenueFlat)
    else Signal(0, RevenueGrowing)
  }

  /** Liquidity deduction on the current ratio: 4 below 0.8, 2 below 1.0. */
  function LiquidityRiskRung(cr: Float): (p: Part<QualTag>)
    ensures -4 <= p.score <= 0
    ensures p.risks != [] <==> Lt(cr, Fin(1.0))
    ensures p.score == 0 <==> !Lt(cr, Fin(1.0))
  {
    if Lt(cr, Fin(0.8)) then Risk(-4, LiquidityDanger)
    else if Lt(cr, Fin(1.0)) then Risk(-2, LiquidityShort)
    else Signal(0, LiquidityFine)
  }

  /** 25 less the four deductions, before the floor. */
  function RiskDeductions(beta: Float, de: Float, growth: Float, cr: Float): (p: Part<QualTag>)
    ensures 0 <= p.score <= 25
  {
    Then(Then(Then(Then(Points(25), BetaRiskRung(beta)), DebtRiskRung(de)), RevenueRiskRung(growth)),
         LiquidityRiskRung(cr))
  }

  /** The risk-factor verdict: `max(score, 0)` of the deductions. */
  function RiskFactorsVerdict(beta: Float, de: Float, growth: Float, cr: Float): (p: Part<QualTag>)
    ensures 0 <= p.score <= 25
  {
    Floored(RiskDeductions(beta, de, growth, cr))
  }

  /** The numeric entries `analyze_risk_factors` reads; a None in any of them raises. */
  predicate RiskFactorsNone(info: QualInfo)
  {
    StoredNone(info, Beta) || StoredNone(info, DebtToEquity)
    || StoredNone(info, RevenueGrowth) || StoredNone(info, CurrentRatio)
  }

  /** `analyze_risk_factors` for `info`: TypeError on a None entry, else the verdict. */
  function RiskFactorsOf(info: QualInfo): (o: Outcome<Part<QualTag>>)
    ensures o.Raised? <==> RiskFactorsNone(info)
    ensures o.Raised? ==> o.error == TypeError
    ensures o.Done? ==> 0 <= o.value.score <= 25
  {
    if RiskFactorsNone(info) then Raised(TypeError)
    else Done(RiskFactorsVerdict(NumberOr(info, Beta, 1.0), NumberOr(info, DebtToEquity, 0.0),
                                 NumberOr(info, RevenueGrowth, 0.0), NumberOr(info, CurrentRatio, 1.0)))
  }

  // ---------------------------------------------------------------------
  // Moat rating and the whole report
  // ---------------------------------------------------------------------

  datatype Moat = Wide | Narrow | NoMoat

  function MoatText(m: Moat): string
  {
    match m
    case Wide => "Wide"
    case Narrow => "Narrow"
    case NoMoat => "None"
  }

  /** `get_moat_rating` on the gross and operating margins (fractions) and the market cap. */
  function MoatRating(gross: Float, operating: Float, cap: Float): (m: Moat)
    ensures m == Wide <==> Ge(gross, Fin(0.5)) && Ge(operating, Fin(0.2)) && Gt(cap, Fin(50_000_000_000_000.0))
    ensures m == Narrow <==> !(Ge(gross, Fin(0.5)) && Ge(operating, Fin(0.2)) && Gt(cap, Fin(50_000_000_000_000.0)))
                             && Ge(gross, Fin(0.3)) && Ge(operating, Fin(0.1))
    ensures m == NoMoat <==> !(Ge(gross, Fin(0.3)) && Ge(operating, Fin(0.1)))
  {
    if Ge(gross, Fin(0.5)) && Ge(operating, Fin(0.2)) && Gt(cap, Fin(50_000_000_000_000.0)) then Wide
    else if Ge(gross, Fin(0.3)) && Ge(operating, Fin(0.1)) then Narrow
    else NoMoat
  }

  /**
   * `get_moat_rating` on `info`.  Python's `and` stops at the first false
   * test, so a None gross margin always raises, a None operating margin
   * only once the gross margin reaches 0.3, and a None market cap only once
   * both margins pass the wide-moat tests.
   */
  function MoatOf(info: QualInfo): (o: Outcome<Moat>)
    ensures o.Raised? ==> o.error == TypeError
    ensures !StoredNone(info, GrossMargins) && !StoredNone(info, OperatingMargins) && !StoredNone(info, MarketCap)
            ==> o == Done(MoatRating(NumberOr(info, GrossMargins, 0.0), NumberOr(info, OperatingMargins, 0.0),
                                     NumberOr(info, MarketCap, 0.0)))
  {
    if StoredNone(info, GrossMargins) then Raised(TypeError)
    else
      var gross := NumberOr(info, GrossMargins, 0.0);
      if Ge(gross, Fin(0.5)) && StoredNone(info, OperatingMargins) then Raised(TypeError)
      else if Ge(gross, Fin(0.5)) && Ge(NumberOr(info, OperatingMargins, 0.0), Fin(0.2))
              && StoredNone(info, MarketCap) then Raised(TypeError)
      else if Ge(gross, Fin(0.5)) && Ge(NumberOr(info, OperatingMargins, 0.0), Fin(0.2))
              && Gt(NumberOr(info, MarketCap, 0.0), Fin(50_000_000_000_000.0)) then Done(Wide)
      else if Ge(gross, Fin(0.3)) && StoredNone(info, OperatingMargins) then Raised(TypeError)
      else if Ge(gross, Fin(0.3)) && Ge(NumberOr(info, OperatingMargins, 0.0), Fin(0.1)) then Done(Narrow)
      else Done(NoMoat)
  }

  /** The text fields of the result: sector, industry (both 'Unknown' when missing) and the moat rating. */
  function QualLabels(info: QualInfo, moat: Moat): (m: map<string, string>)
    ensures "moat_rating" in m && m["moat_rating"] == MoatText(moat)
    ensures "sector" in m && "industry" in m
    ensures "sector" !in info.texts ==> m["sector"] == "Unknown"
    ensures "industry" !in info.texts ==> m["industry"] == "Unknown"
  {
    map["sector" := TextOr(info, "sector", "Unknown"), "industry" := TextOr(info, "industry", "Unknown"),
        "moat_rating" := MoatText(moat)]
  }

  /** The result record built from the four sub-scores and the labels of `info`. */
  function Assemble(info: QualInfo, b: Part<QualTag>, m: Part<QualTag>, o: Part<QualTag>, k: Part<QualTag>, moat: Moat): (r: AgentReport)
    requires 0 <= b.score <= 25 && 0 <= m.score <= 25 && 0 <= o.score <= 25 && 0 <= k.score <= 25
    ensures r.Report? && r.breakdown == [b.score, m.score, o.score, k.score]
    ensures 0 <= r.total <= 100 && r.rec == Recommend(r.total)
    ensures "moat_rating" in r.labels && r.labels["moat_rating"] == MoatText(moat)
  {
    Level1Report(b, m, o, k, QualLabel, QualLabels(info, moat), map[])
  }

  /**
   * The result `analyze` returns once `info` has been fetched: the four
   * dimensions and then the moat rating, in that order, the first that
   * raises ending the analysis with its TypeError.
   */
  function QualReport(info: QualInfo): (o: Outcome<AgentReport>)
    ensures o.Raised? <==> (BusinessModelNone(info) || ManagementNone(info) || RiskFactorsNone(info)
                           || MoatOf(info).Raised?)
    ensures o.Raised? ==> o.error == TypeError
    ensures o.Done? ==> BusinessModelOf(info).Done? && ManagementOf(info).Done?
                        && IndustryOutlookOf(info).Done? && RiskFactorsOf(info).Done? && MoatOf(info).Done?
    ensures o.Done? ==> o.value.Report?
                        && o.value.breakdown == [BusinessModelOf(info).value.score, ManagementOf(info).value.score,
                                                 IndustryOutlookOf(info).value.score, RiskFactorsOf(info).value.score]
                        && 0 <= o.value.total <= 100 && o.value.rec == Recommend(o.value.total)
                        && "moat_rating" in o.value.labels
                        && o.value.labels["moat_rating"] == MoatText(MoatOf(info).value)
  {
    var business, management := BusinessModelOf(info), ManagementOf(info);
    var industry, risk, moat := IndustryOutlookOf(info), RiskFactorsOf(info), MoatOf(info);
    if business.Raised? then Raised(business.error)
    else if management.Raised? then Raised(management.error)
    else if industry.Raised? then Raised(industry.error)
    else if risk.Raised? then Raised(risk.error)
    else if moat.Raised? then Raised(moat.error)
    else Done(Assemble(info, business.value, management.value, industry.value, risk.value, moat.value))
  }

  /** The four keys `analyze` stores in `scores`. */
  datatype Dimension = BusinessModel | Management | IndustryOutlook | RiskFactors

  // ---------------------------------------------------------------------
  // The agent object
  // ---------------------------------------------------------------------

  class QualitativeAnalysisAgent {
    var info: QualInfo
    var scores: map<Dimension, int>

    constructor ()
      ensures info == EmptyInfo && scores == map[]
    {
      info := EmptyInfo;
      scores := map[];
    }

    /**
     * `analyze_business_model`: market cap, diversification, gross margin
     * and R&D, in that order; a None entry raises where it is read.
     */
    method AnalyzeBusinessModel() returns (o: Outcome<Part<QualTag>>)
      ensures o == BusinessModelOf(info)
    {
      if StoredNone(info, MarketCap) {
        return Raised(TypeError);
      }
      var p := MarketCapRung(NumberOr(info, MarketCap, 0.0));
      p := Then(p, DiversificationRung(Sector(info), Industry(info)));
      if StoredNone(info, GrossMargins) {
        return Raised(TypeError);
      }
      var grossMargin := PercentOf(info, GrossMargins);
      p := Then(p, GrossMarginRung(grossMargin));
      if StoredNone(info, RevenuePerShare) {
        return Raised(TypeError);
      }
      p := Then(p, ResearchRung(NumberOr(info, RevenuePerShare, 0.0)));
      o := Done(Capped(p, 25));
    }

    /**
     * `analyze_management`: dividend, payout, insiders, institutions and
     * employees, in that order; a None entry raises where it is read.
     */
    method AnalyzeManagement() returns (o: Outcome<Part<QualTag>>)
      ensures o == ManagementOf(info)
    {
      if StoredNone(info, DividendYield) || StoredNone(info, PayoutRatio) {
        return Raised(TypeError);
      }
      var yieldPercent := PercentOf(info, DividendYield);
      var payoutRatio := PercentOf(info, PayoutRatio);
      var p := DividendRung(yieldPercent);
      p := Then(p, PayoutRung(payoutRatio));
      assert p == ShareholderReturnRung(yieldPercent, payoutRatio);
      if StoredNone(info, HeldPercentInsiders) || StoredNone(info, HeldPercentInstitutions) {
        return Raised(TypeError);
      }
      var insiders := PercentOf(info, HeldPercentInsiders);
      var institutions := PercentOf(info, HeldPercentInstitutions);
      var governance := InsiderRung(insiders);
      governance := Then(governance, InstitutionRung(institutions));
      if StoredNone(info, FullTimeEmployees) {
        return Raised(TypeError);
      }
      var employees := NumberOr(info, FullTimeEmployees, 0.0);
      governance := Then(governance, EmployeesRung(employees));
      assert governance == GovernanceRung(insiders, institutions, employees);
      p := Then(p, governance);
      assert p == ManagementRaw(yieldPercent, payoutRatio, insiders, institutions, employees);
      o := Done(Capped(p, 25));
    }

    /** `analyze_industry_outlook`: sector, technology and beta, in that order. */
    method AnalyzeIndustryOutlook() returns (o: Outcome<Part<QualTag>>)
      ensures o == IndustryOutlookOf(info)
    {
      var p := SectorGrowthRung(Sector(info));
      p := Then(p, TechnologyRung(Industry(info)));
      if StoredNone(info, Beta) {
        return Raised(TypeError);
      }
      p := Then(p, BetaPositionRung(NumberOr(info, Beta, 1.0)));
      o := Done(Capped(p, 25));
    }

    /** `analyze_risk_factors`: start from 25 and deduct for beta, debt, revenue and liquidity. */
    method AnalyzeRiskFactors() returns (o: Outcome<Part<QualTag>>)
      ensures o == RiskFactorsOf(info)
    {
      var p := Points(25);
      if StoredNone(info, Beta) {
        return Raised(TypeError);
      }
      p := Then(p, BetaRiskRung(NumberOr(info, Beta, 1.0)));
      if StoredNone(info, DebtToEquity) {
        return Raised(TypeError);
      }
      p := Then(p, DebtRiskRung(NumberOr(info, DebtToEquity, 0.0)));
      if StoredNone(info, RevenueGrowth) {
        return Raised(TypeError);
      }
      p := Then(p, RevenueRiskRung(NumberOr(info, RevenueGrowth, 0.0)));
      if StoredNone(info, CurrentRatio) {
        return Raised(TypeError);
      }
      p := Then(p, LiquidityRiskRung(NumberOr(info, CurrentRatio, 1.0)));
      o := Done(Floored(p));
    }

    /**
     * `analyze`: on a failed fetch the error record; otherwise the four
     * dimensions in order, each sub-score stored in `scores` as soon as it
     * is computed, then the moat rating and the report.  A dimension or the
     * moat rating that raises ends the analysis with its error.
     */
    method Analyze(fetched: Option<QualInfo>) returns (r: Outcome<AgentReport>)
      modifies this
      ensures fetched.None? ==> r == Done(FetchFailed) && info == old(info) && scores == old(scores)
      ensures fetched.Some? ==> info == fetched.value && r == QualReport(info)
      ensures fetched.Some? && BusinessModelNone(info) ==> scores == old(scores)
      ensures fetched.Some? && !BusinessModelNone(info) && ManagementNone(info)
              ==> scores == old(scores)[BusinessModel := BusinessModelOf(info).value.score]
      ensures fetched.Some? && !BusinessModelNone(info) && !ManagementNone(info) && StoredNone(info, Beta)
              ==> scores == old(scores)[BusinessModel := BusinessModelOf(info).value.score]
                                       [Management := ManagementOf(info).value.score]
      ensures fetched.Some? && !BusinessModelNone(info) && !ManagementNone(info) && !StoredNone(info, Beta)
              && RiskFactorsNone(info)
              ==> scores == old(scores)[BusinessModel := BusinessModelOf(info).value.score]
                                       [Management := ManagementOf(info).value.score]
                                       [IndustryOutlook := IndustryOutlookOf(info).value.score]
      ensures fetched.Some? && !BusinessModelNone(info) && !ManagementNone(info) && !RiskFactorsNone(info)
              ==> scores == old(scores)[BusinessModel := BusinessModelOf(info).value.score]
                                       [Management := ManagementOf(info).value.score]
                                       [IndustryOutlook := IndustryOutlookOf(info).value.score]
                                       [RiskFactors := RiskFactorsOf(info).value.score]
    {
      if fetched.None? {
        return Done(FetchFailed);
      }
      info := fetched.value;
      var business := AnalyzeBusinessModel();
      if business.Raised? {
        return Raised(business.error);
      }
      scores := scores[BusinessModel := business.value.score];
      // The dimension methods change nothing; saying so once per call keeps
      // the proof from reasoning about every intermediate heap.
      var stored := scores;
      var management := AnalyzeManagement();
      assert info == fetched.value && scores == stored;
      if management.Raised? {
        return Raised(management.error);
      }
      scores := scores[Management := management.value.score];
      stored := scores;
      var industry := AnalyzeIndustryOutlook();
      assert info == fetched.value && scores == stored;
      if industry.Raised? {
        return Raised(industry.error);
      }
      scores := scores[IndustryOutlook := industry.value.score];
      stored := scores;
      var risk := AnalyzeRiskFactors();
      assert info == fetched.value && scores == stored;
      if risk.Raised? {
        return Raised(risk.error);
      }
      scores := scores[RiskFactors := risk.value.score];
      var moat := MoatOf(info);
      if moat.Raised? {
        return Raised(moat.error);
      }
      r := Done(Level1Report(business.value, management.value, industry.value, risk.value, QualLabel,
                             QualLabels(info, moat.value), map[]));
    }
  }

  // ---------------------------------------------------------------------
  // Properties of the scoring
  // ---------------------------------------------------------------------

  /** The business-model clamp never binds: the ladders add up to at most 23. */
  lemma BusinessModelNeverClamped(cap: Float, sector: string, industry: string, gm: Float, rps: Float)
    ensures BusinessModelVerdict(cap, sector, industry, gm, rps).score
         == MarketCapRung(cap).score + DiversificationRung(sector, industry).score
          + GrossMarginRung(gm).score + ResearchRung(rps).score
  {
  }

  /** The management ladders' maxima add up to exactly 25, so its clamp never binds either. */
  lemma ManagementNeverClamped(dividendYield: Float, payout: Float, insiders: Float, institutions: Float, employees: Float)
    ensures ManagementVerdict(dividendYield, payout, insiders, institutions, employees).score
         == DividendRung(dividendYield).score + PayoutRung(payout).score + InsiderRung(insiders).score
          + InstitutionRung(institutions).score + EmployeesRung(employees).score
  {
    var shareholder := ShareholderReturnRung(dividendYield, payout);
    var governance := GovernanceRung(insiders, institutions, employees);
    assert shareholder.score == DividendRung(dividendYield).score + PayoutRung(payout).score;
    assert governance.score == InsiderRung(insiders).score + InstitutionRung(institutions).score + EmployeesRung(employees).score;
    var raw := ManagementRaw(dividendYield, payout, insiders, institutions, employees);
    assert raw.score == shareholder.score + governance.score;
    assert ManagementVerdict(dividendYield, payout, insiders, institutions, employees).score == raw.score;
  }

  /** The deductions add up to at most 25, so the floor at 0 never binds. */
  lemma RiskFactorsNeverFloored(beta: Float, de: Float, growth: Float, cr: Float)
    ensures RiskFactorsVerdict(beta, de, growth, cr).score
         == 25 + BetaRiskRung(beta).score + DebtRiskRung(de).score + RevenueRiskRung(growth).score
          + LiquidityRiskRung(cr).score
  {
  }

  /**
   * Risk management keeps all 25 points exactly when no deduction applies:
   * beta below 1.0, D/E below 100, revenue not shrinking and a current
   * ratio of at least 1.0, where a NaN reading passes every one of them.
   */
  lemma RiskFactorsFullExactly(beta: Float, de: Float, growth: Float, cr: Float)
    ensures RiskFactorsVerdict(beta, de, growth, cr).score == 25
            <==> !Ge(beta, Fin(1.0)) && !Ge(de, Fin(100.0)) && !Lt(growth, Fin(0.0)) && !Lt(cr, Fin(1.0))
  {
    RiskFactorsNeverFloored(beta, de, growth, cr);
  }

  /** The four deduction ladders, first match: beta 8/5/2, debt 7/4, revenue 6/3 and liquidity 4/2. */
  lemma RiskRungValues(beta: Float, de: Float, growth: Float, cr: Float)
    ensures BetaRiskRung(beta).score == -8 <==> Ge(beta, Fin(1.5))
    ensures BetaRiskRung(beta).score == -5 <==> !Ge(beta, Fin(1.5)) && Ge(beta, Fin(1.2))
    ensures BetaRiskRung(beta).score == -2 <==> !Ge(beta, Fin(1.2)) && Ge(beta, Fin(1.0))
    ensures DebtRiskRung(de).score == -7 <==> Ge(de, Fin(200.0))
    ensures DebtRiskRung(de).score == -4 <==> !Ge(de, Fin(200.0)) && Ge(de, Fin(100.0))
    ensures RevenueRiskRung(growth).score == -6 <==> Lt(growth, Fin(-0.1))
    ensures RevenueRiskRung(growth).score == -3 <==> !Lt(growth, Fin(-0.1)) && Lt(growth, Fin(0.0))
    ensures LiquidityRiskRung(cr).score == -4 <==> Lt(cr, Fin(0.8))
    ensures LiquidityRiskRung(cr).score == -2 <==> !Lt(cr, Fin(0.8)) && Lt(cr, Fin(1.0))
  {
  }

  /** The missing-value defaults: beta 1.0 costs 2, D/E 0, revenue growth 0 and current ratio 1.0 cost nothing. */
  lemma RiskRungsAtDefaults()
    ensures BetaRiskRung(Fin(1.0)).score == -2 && DebtRiskRung(Fin(0.0)).score == 0
    ensures RevenueRiskRung(Fin(0.0)).score == 0 && LiquidityRiskRung(Fin(1.0)).score == 0
  {
  }

  /** With all four inputs missing, risk management scores 23. */
  lemma EmptyInfoRiskFactors()
    ensures RiskFactorsOf(EmptyInfo).Done? && RiskFactorsOf(EmptyInfo).value.score == 23
  {
    assert NumberOr(EmptyInfo, Beta, 1.0) == Fin(1.0) && NumberOr(EmptyInfo, DebtToEquity, 0.0) == Fin(0.0);
    assert NumberOr(EmptyInfo, RevenueGrowth, 0.0) == Fin(0.0) && NumberOr(EmptyInfo, CurrentRatio, 1.0) == Fin(1.0);
    RiskRungsAtDefaults();
    RiskFactorsNeverFloored(Fin(1.0), Fin(0.0), Fin(0.0), Fin(1.0));
  }

  /** The business-model ladders: each band's points, and a risk exactly at the bottom of the two ladders that have one. */
  lemma BusinessModelBands(cap: Float, gm: Float)
    ensures MarketCapRung(cap).score == 8 <==> Ge(cap, Fin(100_000_000_000_000.0))
    ensures MarketCapRung(cap).score == 1 <==> !Ge(cap, Fin(1_000_000_000_000.0))
    ensures GrossMarginRung(gm).score == 7 <==> Ge(gm, Fin(50.0))
    ensures GrossMarginRung(gm).score == 1 <==> !Ge(gm, Fin(15.0))
    ensures MarketCapRung(cap).score == 7 <==> !Ge(cap, Fin(100_000_000_000_000.0)) && Ge(cap, Fin(50_000_000_000_000.0))
    ensures MarketCapRung(cap).score == 5 <==> !Ge(cap, Fin(50_000_000_000_000.0)) && Ge(cap, Fin(10_000_000_000_000.0))
    ensures MarketCapRung(cap).score == 3 <==> !Ge(cap, Fin(10_000_000_000_000.0)) && Ge(cap, Fin(1_000_000_000_000.0))
    ensures GrossMarginRung(gm).score == 5 <==> !Ge(gm, Fin(50.0)) && Ge(gm, Fin(30.0))
    ensures GrossMarginRung(gm).score == 3 <==> !Ge(gm, Fin(30.0)) && Ge(gm, Fin(15.0))
  {
  }

  /** A diversified sector earns the full 6 points whatever the industry. */
  lemma DiversifiedSectorScoresSix(sector: string, industry: string)
    requires DiversifiedSector(sector)
    ensures DiversificationRung(sector, industry).score == 6
  {
  }

  /** Diversification, first match: 6 for a diversified sector, 5 for component or financial industries, else 3. */
  lemma DiversificationBands(sector: string, industry: string)
    ensures DiversificationRung(sector, industry).score == 6 <==> DiversifiedSector(sector)
    ensures DiversificationRung(sector, industry).score == 5
            <==> !DiversifiedSector(sector)
                 && (Contains(Lower(industry), "semiconductor") || Contains(Lower(industry), "electronics")
                     || Contains(Lower(industry), "bank") || Contains(Lower(industry), "financial"))
    ensures DiversificationRung(sector, industry).score == 3
            <==> !DiversifiedSector(sector)
                 && !(Contains(Lower(industry), "semiconductor") || Contains(Lower(industry), "electronics")
                      || Contains(Lower(industry), "bank") || Contains(Lower(industry), "financial"))
  {
  }

  /** Dividend bands 10/8/5/3/0; a payout of at least 60 still earns 3. */
  lemma ManagementBands(dividendYield: Float, payout: Float)
    ensures DividendRung(dividendYield).score == 10 <==> Ge(dividendYield, Fin(3.0))
    ensures DividendRung(dividendYield).score == 0 <==> !Gt(dividendYield, Fin(0.0))
    ensures PayoutRung(payout).score == 5 <==> Gt(payout, Fin(0.0)) && Lt(payout, Fin(60.0))
    ensures PayoutRung(payout).score == 3 <==> Ge(payout, Fin(60.0))
    ensures DividendRung(dividendYield).score == 8 <==> !Ge(dividendYield, Fin(3.0)) && Ge(dividendYield, Fin(2.0))
    ensures DividendRung(dividendYield).score == 5 <==> !Ge(dividendYield, Fin(2.0)) && Ge(dividendYield, Fin(1.0))
    ensures DividendRung(dividendYield).score == 3 <==> !Ge(dividendYield, Fin(1.0)) && Gt(dividendYield, Fin(0.0))
  {
  }

  /** Institutional ownership: 3 points from 30% up, else none; employees: 4 above 10000, 2 above 1000, else none. */
  lemma GovernanceBands(institutions: Float, employees: Float)
    ensures InstitutionRung(institutions).score == 3 <==> Ge(institutions, Fin(30.0))
    ensures InstitutionRung(institutions).score == 0 <==> !Ge(institutions, Fin(30.0))
    ensures EmployeesRung(employees).score == 4 <==> Gt(employees, Fin(10000.0))
    ensures EmployeesRung(employees).score == 2 <==> !Gt(employees, Fin(10000.0)) && Gt(employees, Fin(1000.0))
    ensures EmployeesRung(employees).score == 0 <==> !Gt(employees, Fin(1000.0))
  {
  }

  /** Beta in the outlook: the full 7 points from 1.2 up, at least 2 always. */
  lemma IndustryOutlookBands(beta: Float)
    ensures BetaPositionRung(beta).score == 7 <==> Ge(beta, Fin(1.2))
    ensures BetaPositionRung(beta).score == 2 <==> !Ge(beta, Fin(0.7))
    ensures BetaPositionRung(beta).score == 5 <==> !Ge(beta, Fin(1.2)) && Ge(beta, Fin(0.9))
    ensures BetaPositionRung(beta).score == 4 <==> !Ge(beta, Fin(0.9)) && Ge(beta, Fin(0.7))
  {
  }

  /** The sector ladder 10/7/5/4 and the technology ladder 8/6/4/3, first match. */
  lemma SectorAndTechnologyBands(sector: string, industry: string)
    ensures SectorGrowthRung(sector).score == 10
            <==> sector == "Technology" || sector == "Healthcare" || sector == "Communication Services"
    ensures SectorGrowthRung(sector).score == 7 <==> sector == "Financial Services" || sector == "Consumer Cyclical"
    ensures SectorGrowthRung(sector).score == 5 <==> sector == "Consumer Defensive" || sector == "Utilities"
    ensures SectorGrowthRung(sector).score == 4
            <==> sector !in {"Technology", "Healthcare", "Communication Services", "Financial Services",
                             "Consumer Cyclical", "Consumer Defensive", "Utilities"}
    ensures TechnologyRung(industry).score == 8 <==> TechIndustry(industry)
    ensures TechnologyRung(industry).score == 6
            <==> !TechIndustry(industry) && Contains(Lower(industry), "electronics")
    ensures TechnologyRung(industry).score == 4
            <==> !TechIndustry(industry) && !Contains(Lower(industry), "electronics")
                 && Contains(Lower(industry), "bank")
    ensures TechnologyRung(industry).score == 3
            <==> !TechIndustry(industry) && !Contains(Lower(industry), "electronics")
                 && !Contains(Lower(industry), "bank")
  {
  }

  /** A wide moat needs a market cap above 50조; a narrow one does not look at size. */
  lemma WideMoatNeedsSize(gross: Float, operating: Float, cap: Float)
    requires !Gt(cap, Fin(50_000_000_000_000.0))
    ensures MoatRating(gross, operating, cap) != Wide
    ensures MoatRating(gross, operating, cap) == Narrow <==> Ge(gross, Fin(0.3)) && Ge(operating, Fin(0.1))
  {
  }

  /**
   * A NaN reading fails every comparison and so falls to the last branch of
   * each ladder.  That is not always the branch of a zero reading: zero
   * institutional holdings are a risk, NaN holdings are not.
   */
  lemma NaNFallsThrough()
    ensures MarketCapRung(NaN) == Risk(1, SmallCompany) && GrossMarginRung(NaN) == Risk(1, LowMargin)
    ensures DividendRung(NaN) == Risk(0, NoDividend) && PayoutRung(NaN) == Points(0)
    ensures InstitutionRung(NaN) == Points(0) && InstitutionRung(Fin(0.0)) == Risk(0, InstitutionsLow)
    ensures BetaPositionRung(NaN) == Signal(2, LowVolatility) && BetaRiskRung(NaN) == Signal(0, StableBeta)
    ensures LiquidityRiskRung(NaN) == Signal(0, LiquidityFine) && MoatRating(NaN, NaN, NaN) == NoMoat
  {
  }

  /** The numeric entries the four dimensions score. */
  const ScoredKeys: seq<InfoKey> :=
    [MarketCap, GrossMargins, RevenuePerShare, DividendYield, PayoutRatio, HeldPercentInsiders,
     HeldPercentInstitutions, FullTimeEmployees, Beta, DebtToEquity, RevenueGrowth, CurrentRatio]

  /** A None in any scored entry makes `analyze` raise TypeError. */
  lemma ScoredNoneRaises(info: QualInfo, key: InfoKey)
    requires key in ScoredKeys && StoredNone(info, key)
    ensures QualReport(info).Raised? && QualReport(info).error == TypeError
  {
    assert BusinessModelNone(info) || ManagementNone(info) || RiskFactorsNone(info);
  }

  /** An `info` without None entries never raises, whatever NaN entries it holds. */
  lemma NoNoneNeverRaises(info: QualInfo)
    requires forall key :: key in info.numbers ==> info.numbers[key].Some?
    ensures QualReport(info).Done?
  {
    assert !BusinessModelNone(info) && !ManagementNone(info) && !RiskFactorsNone(info);
    assert MoatOf(info).Done?;
  }

  /**
   * A None operating margin raises only when the moat test reaches it: once
   * the gross margin is at least 0.3.
   */
  lemma MoatNoneOperatingMargin(info: QualInfo)
    requires StoredNone(info, OperatingMargins) && !StoredNone(info, GrossMargins)
    ensures MoatOf(info).Raised? <==> Ge(NumberOr(info, GrossMargins, 0.0), Fin(0.3))
    ensures MoatOf(info).Done? ==> MoatOf(info).value == NoMoat
  {
  }
}
