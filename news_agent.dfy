// The news-sentiment Level-1 agent: four 0-25 sub-scores — keyword sentiment
// over the latest articles, trading interest read from volume and
// volatility, event risk found in headlines, and price momentum — summed
// into a 0-100 total with the shared BUY/HOLD/SELL ladder.
module NewsAgent {
  import opened Common

  /** The signals and risks the agent emits, without the numbers it formats into some of them. */
  datatype NewsTag =
    | NoNews | PositiveDominant | PositiveMany | NeutralPositive | NegativeDominant | NegativeMany
    | NewsActive | NewsModerate | NewsScarce
    | NoSocialData | HighInterest | RisingInterest | AverageInterest | FallingInterest
    | HighVolatility | RaisedVolatility | NormalVolatility | LowVolatility
    | EarningsDue | EarningsNews | DividendNews | MeetingScheduled
    | OfferingLikely | OfferingRumour | LegalRisks | LegalRisk | ExecutiveChange | ManagementNews
    | NoEventRisk
    | NoPriceData | StrongShortRise | ShortRise | ShortFlatOrRise | ShortFall | StrongShortFall
    | StrongMidRise | MidRise | MidFlatOrRise | MidFall | StrongMidFall
    | VolumeBackedRise | VolumeRise | VolumeFallingDecline

  function NewsLabel(t: NewsTag): string
  {
    match t
    case NoNews => "뉴스 데이터 없음"
    case PositiveDominant => "긍정 뉴스 우세"
    case PositiveMany => "긍정 뉴스 많음"
    case NeutralPositive => "뉴스 중립-긍정"
    case NegativeDominant => "부정 뉴스 우세"
    case NegativeMany => "부정 뉴스 다수"
    case NewsActive => "뉴스 활발"
    case NewsModerate => "뉴스 적정"
    case NewsScarce => "뉴스 부족"
    case NoSocialData => "소셜 데이터 없음"
    case HighInterest => "높은 관심도"
    case RisingInterest => "관심 증가"
    case AverageInterest => "평균 관심도"
    case FallingInterest => "관심 감소"
    case HighVolatility => "높은 변동성 - 활발한 논의"
    case RaisedVolatility => "증가된 변동성"
    case NormalVolatility => "정상 변동성"
    case LowVolatility => "낮은 변동성 - 관심 저조"
    case EarningsDue => "실적 발표 임박"
    case EarningsNews => "실적 관련 뉴스"
    case DividendNews => "배당 관련 소식"
    case MeetingScheduled => "주주총회 일정"
    case OfferingLikely => "증자 가능성"
    case OfferingRumour => "증자 관련 소문"
    case LegalRisks => "법적 리스크 다수"
    case LegalRisk => "법적 리스크"
    case ExecutiveChange => "임원 변동"
    case ManagementNews => "경영진 소식"
    case NoEventRisk => "특별한 이벤트 리스크 없음"
    case NoPriceData => "데이터 부족"
    case StrongShortRise => "강한 단기 상승"
    case ShortRise => "단기 상승"
    case ShortFlatOrRise => "단기 보합~상승"
    case ShortFall => "단기 하락"
    case StrongShortFall => "강한 단기 하락"
    case StrongMidRise => "강한 중기 상승"
    case MidRise => "중기 상승"
    case MidFlatOrRise => "중기 보합~상승"
    case MidFall => "중기 하락"
    case StrongMidFall => "강한 중기 하락"
    case VolumeBackedRise => "거래량 동반 상승"
    case VolumeRise => "거래량 증가 상승"
    case VolumeFallingDecline => "거래량 감소 하락"
  }

  /** A news item; a missing title or summary reads as the empty string. */
  datatype Article = Article(title: string, summary: string)

  /** One day of the 30-day price history. */
  datatype Day = Day(close: real, volume: real)

  /**
   * The price history and the standard deviation, in percent, of its last
   * five daily returns, which is taken as given.
   */
  datatype PriceData = PriceData(days: seq<Day>, volatility: real)

  /** Closing prices are positive, so the returns over them are defined. */
  predicate ClosesPositive(days: seq<Day>)
  {
    forall i :: 0 <= i < |days| ==> days[i].close > 0.0
  }

  predicate PriceFine(pd: Option<PriceData>)
  {
    pd.Some? ==> ClosesPositive(pd.value.days)
  }

  function Mean(s: seq<real>): real
    requires |s| > 0
  {
    SumReal(s) / (|s| as real)
  }

  function Volumes(days: seq<Day>): (v: seq<real>)
    ensures |v| == |days|
  {
    seq(|days|, i requires 0 <= i < |days| => days[i].volume)
  }

  // ---------------------------------------------------------------------
  // News sentiment
  // ---------------------------------------------------------------------

  const PositiveKeywords: seq<string> :=
    ["상승", "호재", "성장", "돌파", "강세", "매수", "upgrade", "beat", "growth", "surge", "rally", "strong"]
  const NegativeKeywords: seq<string> :=
    ["하락", "악재", "감소", "하락세", "매도", "downgrade", "miss", "decline", "drop", "weak", "concern"]

  /** `sum(1 for kw in kws if kw in text)`: how many of the keywords occur. */
  function Hits(text: string, kws: seq<string>): (n: nat)
    ensures n <= |kws|
  {
    if kws == [] then 0 else (if Contains(text, kws[0]) then 1 else 0) + Hits(text, kws[1..])
  }

  datatype Sentiment = Positive | Negative | Neutral

  /** The lowered title and summary; more positive than negative hits is positive, and so on. */
  function Classify(a: Article): Sentiment
  {
    var text := Lower(a.title) + " " + Lower(a.summary);
    var pos := Hits(text, PositiveKeywords);
    var neg := Hits(text, NegativeKeywords);
    if pos > neg then Positive else if neg > pos then Negative else Neutral
  }

  /** How many of the articles classify as `s`. */
  function CountClass(items: seq<Article>, s: Sentiment): nat
  {
    if items == [] then 0
    else CountClass(items[..|items| - 1], s) + (if Classify(items[|items| - 1]) == s then 1 else 0)
  }

  /** The ladder on the share of positive articles among those classified. */
  function RatioRung(positive: int, total: int): Part<NewsTag>
  {
    if total > 0 then
      var ratio := (positive as real) / (total as real);
      if ratio >= 0.5 then Signal(25, PositiveDominant)
      else if ratio >= 0.4 then Signal(20, PositiveMany)
      else if ratio >= 0.3 then Signal(15, NeutralPositive)
      else if ratio >= 0.2 then Signal(8, NegativeDominant)
      else Risk(3, NegativeMany)
    else Points(0)
  }

  /** The number of articles fetched, with no points of its own. */
  function NewsVolumeRung(count: int): Part<NewsTag>
  {
    if count >= 10 then Signal(0, NewsActive)
    else if count >= 5 then Signal(0, NewsModerate)
    else Risk(0, NewsScarce)
  }

  /** With no news 12 points; otherwise the ratio ladder over the first 20 articles. */
  function SentimentVerdict(news: seq<Article>): (p: Part<NewsTag>)
    ensures 0 <= p.score <= 25
    ensures p == Part(12, [NoNews], []) <==> news == []
  {
    if news == [] then Part(12, [NoNews], [])
    else
      var recent := Prefix(news, 20);
      Capped(Then(RatioRung(CountClass(recent, Positive), |recent|), NewsVolumeRung(|news|)), 25)
  }

  // ---------------------------------------------------------------------
  // Social interest
  // ---------------------------------------------------------------------

  /** The mean volume of the last five days over the mean of the whole history, 1 when that is 0. */
  function VolumeRatio(days: seq<Day>): real
    requires |days| >= 5
  {
    var avg := Mean(Volumes(days));
    if avg > 0.0 then Mean(Tail(Volumes(days), 5)) / avg else 1.0
  }

  function InterestRung(ratio: real): Part<NewsTag>
  {
    if ratio >= 2.0 then Signal(15, HighInterest)
    else if ratio >= 1.5 then Signal(12, RisingInterest)
    else if ratio >= 1.0 then Signal(8, AverageInterest)
    else Risk(4, FallingInterest)
  }

  function VolatilityRung(volatility: real): Part<NewsTag>
  {
    if volatility >= 5.0 then Signal(10, HighVolatility)
    else if volatility >= 3.0 then Signal(7, RaisedVolatility)
    else if volatility >= 1.0 then Signal(5, NormalVolatility)
    else Risk(2, LowVolatility)
  }

  function SocialVerdict(pd: Option<PriceData>): (p: Part<NewsTag>)
    ensures 0 <= p.score <= 25
  {
    if pd.None? || |pd.value.days| < 5 then Part(12, [NoSocialData], [])
    else Capped(Then(InterestRung(VolumeRatio(pd.value.days)), VolatilityRung(pd.value.volatility)), 25)
  }

  // ---------------------------------------------------------------------
  // Event risk
  // ---------------------------------------------------------------------

  datatype EventKind = Earnings | Dividend | Meeting | Offering | Lawsuit | Executive

  /** The event kinds in the order the source lists them. */
  const EventKinds: seq<EventKind> := [Earnings, Dividend, Meeting, Offering, Lawsuit, Executive]

  function KindIndex(k: EventKind): (i: nat)
    ensures i < |EventKinds| && EventKinds[i] == k
  {
    match k
    case Earnings => 0
    case Dividend => 1
    case Meeting => 2
    case Offering => 3
    case Lawsuit => 4
    case Executive => 5
  }

  lemma KindIndexAt(j: nat)
    requires j < |EventKinds|
    ensures KindIndex(EventKinds[j]) == j
  {
    if j == 0 {} else if j == 1 {} else if j == 2 {} else if j == 3 {} else if j == 4 {} else {}
  }

  /**
   * The headline keywords of each event kind, matched against the lowered
   * headline.  The earnings and executive lists are written lower-case here;
   * see EventKeywordsAsWritten for the source's spelling.
   */
  function EventKeywords(k: EventKind): (r: seq<string>)
    ensures forall i, j :: 0 <= i < |r| && 0 <= j < |r[i]| ==> !IsUpper(r[i][j])
  {
    match k
    case Earnings => ["실적", "earnings", "eps", "revenue", "분기", "연간"]
    case Dividend => ["배당", "dividend", "주주환원"]
    case Meeting => ["주총", "주주총회", "shareholder meeting"]
    case Offering => ["유상증자", "무상증자", "공모", "offering"]
    case Lawsuit => ["소송", "lawsuit", "fine", "penalty", "제재"]
    case Executive => ["ceo", "임원", "퇴임", "취임", "executive"]
  }

  /** A headline mentions an event of kind k. */
  predicate EventHit(title: string, k: EventKind)
  {
    ContainsAny(Lower(title), EventKeywords(k))
  }

  /** How many of the articles have a headline mentioning an event of kind k. */
  function EventCount(items: seq<Article>, k: EventKind): nat
  {
    if items == [] then 0
    else EventCount(items[..|items| - 1], k) + (if EventHit(items[|items| - 1].title, k) then 1 else 0)
  }

  function EarningsRung(n: int): Part<NewsTag>
  {
    if n >= 2 then Risk(-3, EarningsDue) else if n > 0 then Signal(0, EarningsNews) else Points(0)
  }

  function OfferingRung(n: int): Part<NewsTag>
  {
    if n >= 2 then Risk(-8, OfferingLikely) else if n > 0 then Risk(-3, OfferingRumour) else Points(0)
  }

  function LawsuitRung(n: int): Part<NewsTag>
  {
    if n >= 2 then Risk(-10, LegalRisks) else if n > 0 then Risk(-5, LegalRisk) else Points(0)
  }

  function ExecutiveRung(n: int): Part<NewsTag>
  {
    if n >= 2 then Risk(-4, ExecutiveChange) else if n > 0 then Signal(0, ManagementNews) else Points(0)
  }

  /** The deductions from 25 before the closing note, in the source's order. */
  function EventDeductions(earnings: int, dividend: int, meeting: int, offering: int, lawsuit: int, executive: int): Part<NewsTag>
  {
    Then(Then(Then(Then(Then(Then(
      Points(25),
      EarningsRung(earnings)),
      When(dividend > 0, Signal(0, DividendNews))),
      When(meeting > 0, Signal(0, MeetingScheduled))),
      OfferingRung(offering)),
      LawsuitRung(lawsuit)),
      ExecutiveRung(executive))
  }

  /** "특별한 이벤트 리스크 없음" closes a part that recorded no risk. */
  function NoRiskNote(p: Part<NewsTag>): Part<NewsTag>
  {
    if p.risks == [] then Then(p, Signal(0, NoEventRisk)) else p
  }

  /** The event-risk verdict from the six event counts. */
  function EventVerdict(earnings: int, dividend: int, meeting: int, offering: int, lawsuit: int, executive: int): (p: Part<NewsTag>)
    ensures 0 <= p.score <= 25
  {
    Floored(NoRiskNote(EventDeductions(earnings, dividend, meeting, offering, lawsuit, executive)))
  }

  /** The event-risk verdict over the headlines of the first 15 articles. */
  function EventRiskOf(news: seq<Article>): Part<NewsTag>
  {
    var recent := Prefix(news, 15);
    EventVerdict(EventCount(recent, Earnings), EventCount(recent, Dividend), EventCount(recent, Meeting),
                 EventCount(recent, Offering), EventCount(recent, Lawsuit), EventCount(recent, Executive))
  }

  // ---------------------------------------------------------------------
  // Price momentum
  // ---------------------------------------------------------------------

  /** The change in percent from the close `back` days before the last to the last. */
  function ReturnPercent(days: seq<Day>, back: nat): real
    requires 0 < back <= |days| && ClosesPositive(days)
  {
    (days[|days| - 1].close / days[|days| - back].close - 1.0) * 100.0
  }

  /** The mean volume of the last five days against the five before, in percent; 0 when those are 0. */
  function VolumeChange(days: seq<Day>): real
    requires |days| >= 10
  {
    var v := Volumes(days);
    var prev := Mean(v[|v| - 10..|v| - 5]);
    if prev > 0.0 then (Mean(Tail(v, 5)) / prev - 1.0) * 100.0 else 0.0
  }

  function ShortReturnRung(r5: real): Part<NewsTag>
  {
    if r5 >= 10.0 then Signal(10, StrongShortRise)
    else if r5 >= 5.0 then Signal(8, ShortRise)
    else if r5 >= 0.0 then Signal(5, ShortFlatOrRise)
    else if r5 >= -5.0 then Risk(2, ShortFall)
    else Risk(0, StrongShortFall)
  }

  function MidReturnRung(r20: real): Part<NewsTag>
  {
    if r20 >= 20.0 then Signal(8, StrongMidRise)
    else if r20 >= 10.0 then Signal(6, MidRise)
    else if r20 >= 0.0 then Signal(4, MidFlatOrRise)
    else if r20 >= -10.0 then Risk(2, MidFall)
    else Risk(0, StrongMidFall)
  }

  function VolumeConfirmRung(change: real, r5: real): Part<NewsTag>
  {
    if change >= 50.0 && r5 > 0.0 then Signal(7, VolumeBackedRise)
    else if change >= 20.0 && r5 > 0.0 then Signal(5, VolumeRise)
    else if change >= 0.0 then Points(3)
    else if r5 < 0.0 then Risk(1, VolumeFallingDecline)
    else Points(0)
  }

  /** The momentum points over a history long enough for the 20-day return. */
  function MomentumScored(days: seq<Day>): Part<NewsTag>
    requires |days| >= 20 && ClosesPositive(days)
  {
    var r5 := ReturnPercent(days, 5);
    Capped(Then(Then(ShortReturnRung(r5), MidReturnRung(ReturnPercent(days, 20))),
                VolumeConfirmRung(VolumeChange(days), r5)), 25)
  }

  /** Momentum with a shortage guard that covers the 20-day look-back. */
  function MomentumVerdict(pd: Option<PriceData>): (p: Part<NewsTag>)
    requires PriceFine(pd)
    ensures 0 <= p.score <= 25
    ensures p == Part(12, [NoPriceData], []) <==> pd.None? || |pd.value.days| < 20
  {
    if pd.None? || |pd.value.days| < 20 then Part(12, [NoPriceData], [])
    else MomentumScored(pd.value.days)
  }

  /** A look-back into the price history that may raise Python's IndexError. */
  datatype Lookback<T> = Done(value: T) | IndexError

  /**
   * Momentum as the source guards it: only fewer than 10 rows count as a
   * shortage, so 10 to 19 rows reach the 20-day look-back and raise.
   */
  function MomentumAsWritten(pd: Option<PriceData>): (o: Lookback<Part<NewsTag>>)
    requires PriceFine(pd)
    ensures o.IndexError? <==> pd.Some? && 10 <= |pd.value.days| < 20
  {
    if pd.None? || |pd.value.days| < 10 then Done(Part(12, [NoPriceData], []))
    else if |pd.value.days| < 20 then IndexError
    else Done(MomentumScored(pd.value.days))
  }

  // ---------------------------------------------------------------------
  // Sentiment trend
  // ---------------------------------------------------------------------

  datatype Trend = Unknown | Improving | Declining | Stable

  function TrendLabel(t: Trend): string
  {
    match t
    case Unknown => "Unknown"
    case Improving => "Improving"
    case Declining => "Declining"
    case Stable => "Stable"
  }

  /** The trend from the 5-day and 20-day returns, as fractions. */
  function TrendOf(r5: real, r20: real): (t: Trend)
    ensures t == Improving <==> r5 > 0.05 && r20 > 0.0
    ensures t == Declining <==> r5 < -0.05 && r20 < 0.0
    ensures t == Stable <==> !(r5 > 0.05 && r20 > 0.0) && !(r5 < -0.05 && r20 < 0.0)
    ensures t != Unknown
  {
    if r5 > 0.05 && r20 > 0.0 then Improving
    else if r5 < -0.05 && r20 < 0.0 then Declining
    else Stable
  }

  /** The change as a fraction from the close `back` days before the last to the last. */
  function ReturnFraction(days: seq<Day>, back: nat): real
    requires 0 < back <= |days| && ClosesPositive(days)
  {
    days[|days| - 1].close / days[|days| - back].close - 1.0
  }

  /** The sentiment trend with a shortage guard that covers the 20-day look-back. */
  function SentimentTrend(pd: Option<PriceData>): (t: Trend)
    requires PriceFine(pd)
    ensures t == Unknown <==> pd.None? || |pd.value.days| < 20
  {
    if pd.None? || |pd.value.days| < 20 then Unknown
    else TrendOf(ReturnFraction(pd.value.days, 5), ReturnFraction(pd.value.days, 20))
  }

  /** The sentiment trend as the source guards it: 10 to 19 rows raise. */
  function SentimentTrendAsWritten(pd: Option<PriceData>): (o: Lookback<Trend>)
    requires PriceFine(pd)
    ensures o.IndexError? <==> pd.Some? && 10 <= |pd.value.days| < 20
  {
    if pd.None? || |pd.value.days| < 10 then Done(Unknown)
    else if |pd.value.days| < 20 then IndexError
    else Done(TrendOf(ReturnFraction(pd.value.days, 5), ReturnFraction(pd.value.days, 20)))
  }

  // ---------------------------------------------------------------------
  // The result record
  // ---------------------------------------------------------------------

  datatype NewsDimension = NewsSentiment | SocialMedia | EventRisk | MomentumSignals

  /** What `analyze` returns once the news and price history have been fetched. */
  function NewsReport(news: seq<Article>, pd: Option<PriceData>): (r: AgentReport)
    requires PriceFine(pd)
    ensures r.Report? && r.breakdown == [SentimentVerdict(news).score, SocialVerdict(pd).score,
                                         EventRiskOf(news).score, MomentumVerdict(pd).score]
    ensures 0 <= r.total <= 100 && r.rec == Recommend(r.total)
    ensures "sentiment_trend" in r.labels && r.labels["sentiment_trend"] == TrendLabel(SentimentTrend(pd))
    ensures "news_count" in r.metrics && r.metrics["news_count"] == |news| as real
  {
    Level1Report(SentimentVerdict(news), SocialVerdict(pd), EventRiskOf(news), MomentumVerdict(pd),
                 NewsLabel, map["sentiment_trend" := TrendLabel(SentimentTrend(pd))],
                 map["news_count" := |news| as real])
  }

  /** One pass over the event kinds for one lowered headline: each kind it mentions counts once more. */
  method TallyHeadline(counts: map<EventKind, int>, title: string) returns (r: map<EventKind, int>)
    requires forall k :: k in counts
    ensures forall k :: k in r && r[k] == counts[k] + (if ContainsAny(title, EventKeywords(k)) then 1 else 0)
  {
    r := counts;
    for j := 0 to |EventKinds|
      invariant forall k :: k in r
                  && r[k] == counts[k] + (if KindIndex(k) < j && ContainsAny(title, EventKeywords(k)) then 1 else 0)
    {
      var kind := EventKinds[j];
      KindIndexAt(j);
      if ContainsAny(title, EventKeywords(kind)) {
        r := r[kind := r[kind] + 1];
      }
      forall k | k != kind ensures KindIndex(k) != j {
        assert EventKinds[KindIndex(k)] == k;
      }
    }
  }

  /** `event_counts`: for each event kind, how many of the headlines mention it. */
  method CountEventMentions(recent: seq<Article>) returns (counts: map<EventKind, int>)
    ensures forall k :: k in counts && counts[k] == EventCount(recent, k)
  {
    counts := map k | k in EventKinds :: 0;
    forall k ensures k in counts && counts[k] == EventCount(recent[..0], k) {
      assert EventKinds[KindIndex(k)] == k;
      assert recent[..0] == [];
    }
    for i := 0 to |recent|
      invariant forall k :: k in counts && counts[k] == EventCount(recent[..i], k)
    {
      counts := TallyHeadline(counts, Lower(recent[i].title));
      assert recent[..i + 1][..i] == recent[..i];
    }
    assert recent[..|recent|] == recent;
  }

  // ---------------------------------------------------------------------
  // The agent object
  // ---------------------------------------------------------------------

  class NewsSentimentAgent {
    var news: seq<Article>
    /** The 30-day history; None before the first fetch. */
    var priceData: Option<PriceData>
    var scores: map<NewsDimension, int>

    constructor()
      ensures news == [] && priceData == None && scores == map[]
    {
      news := [];
      priceData := None;
      scores := map[];
    }

    /** Classifies the first 20 articles, counting each in exactly one class. */
    method AnalyzeNewsSentiment() returns (p: Part<NewsTag>)
      ensures p == SentimentVerdict(news)
    {
      if news == [] {
        return Part(12, [NoNews], []);
      }
      var recent := Prefix(news, 20);
      var positive, negative, neutral := 0, 0, 0;
      for i := 0 to |recent|
        invariant positive == CountClass(recent[..i], Positive)
        invariant negative == CountClass(recent[..i], Negative)
        invariant neutral == CountClass(recent[..i], Neutral)
      {
        assert recent[..i + 1][..i] == recent[..i];
        var item := recent[i];
        var text := Lower(item.title) + " " + Lower(item.summary);
        var posHits := Hits(text, PositiveKeywords);
        var negHits := Hits(text, NegativeKeywords);
        if posHits > negHits {
          positive := positive + 1;
        } else if negHits > posHits {
          negative := negative + 1;
        } else {
          neutral := neutral + 1;
        }
      }
      assert recent[..|recent|] == recent;
      CountsPartition(recent);
      var total := positive + negative + neutral;
      p := RatioRung(positive, total);
      p := Then(p, NewsVolumeRung(|news|));
      p := Capped(p, 25);
    }

    method AnalyzeSocialMedia() returns (p: Part<NewsTag>)
      ensures p == SocialVerdict(priceData)
    {
      if priceData.None? || |priceData.value.days| < 5 {
        return Part(12, [NoSocialData], []);
      }
      p := InterestRung(VolumeRatio(priceData.value.days));
      p := Then(p, VolatilityRung(priceData.value.volatility));
      p := Capped(p, 25);
    }

    /** Counts event mentions in the first 15 headlines, then deducts from 25. */
    method AnalyzeEventRisk() returns (p: Part<NewsTag>)
      ensures p == EventRiskOf(news)
    {
      var counts := CountEventMentions(Prefix(news, 15));
      p := Points(25);
      p := Then(p, EarningsRung(counts[Earnings]));
      p := Then(p, When(counts[Dividend] > 0, Signal(0, DividendNews)));
      p := Then(p, When(counts[Meeting] > 0, Signal(0, MeetingScheduled)));
      p := Then(p, OfferingRung(counts[Offering]));
      p := Then(p, LawsuitRung(counts[Lawsuit]));
      p := Then(p, ExecutiveRung(counts[Executive]));
      p := NoRiskNote(p);
      p := Floored(p);
    }

    method AnalyzeMomentumSignals() returns (p: Part<NewsTag>)
      requires PriceFine(priceData)
      ensures p == MomentumVerdict(priceData)
    {
      if priceData.None? || |priceData.value.days| < 20 {
        return Part(12, [NoPriceData], []);
      }
      var days := priceData.value.days;
      var r5 := ReturnPercent(days, 5);
      var r20 := ReturnPercent(days, 20);
      p := ShortReturnRung(r5);
      p := Then(p, MidReturnRung(r20));
      p := Then(p, VolumeConfirmRung(VolumeChange(days), r5));
      p := Capped(p, 25);
    }

    method GetSentimentTrend() returns (t: Trend)
      requires PriceFine(priceData)
      ensures t == SentimentTrend(priceData)
    {
      if priceData.None? || |priceData.value.days| < 20 {
        return Unknown;
      }
      var r5 := ReturnFraction(priceData.value.days, 5);
      var r20 := ReturnFraction(priceData.value.days, 20);
      t := TrendOf(r5, r20);
    }

    /**
     * `analyze`: a fetch that raises yields the error record and changes
     * nothing; otherwise the fetched news and history replace the old ones
     * and each sub-score is stored as it is computed.
     */
    method Analyze(fetched: Option<(seq<Article>, PriceData)>) returns (r: AgentReport)
      requires fetched.Some? ==> ClosesPositive(fetched.value.1.days)
      modifies this
      ensures fetched.None? ==> r == FetchFailed && news == old(news)
                                && priceData == old(priceData) && scores == old(scores)
      ensures fetched.Some? ==> news == fetched.value.0 && priceData == Some(fetched.value.1)
      ensures fetched.Some? ==> r == NewsReport(news, priceData)
      ensures fetched.Some? ==> scores == old(scores)[NewsSentiment := SentimentVerdict(news).score]
                                                     [SocialMedia := SocialVerdict(priceData).score]
                                                     [EventRisk := EventRiskOf(news).score]
                                                     [MomentumSignals := MomentumVerdict(priceData).score]
    {
      if fetched.None? {
        return FetchFailed;
      }
      news := fetched.value.0;
      priceData := Some(fetched.value.1);
      var sentiment := AnalyzeNewsSentiment();
      scores := scores[NewsSentiment := sentiment.score];
      var social := AnalyzeSocialMedia();
      scores := scores[SocialMedia := social.score];
      var event := AnalyzeEventRisk();
      scores := scores[EventRisk := event.score];
      var momentum := AnalyzeMomentumSignals();
      scores := scores[MomentumSignals := momentum.score];
      var trend := GetSentimentTrend();
      assert sentiment.score == SentimentVerdict(news).score && social.score == SocialVerdict(priceData).score;
      assert event.score == EventRiskOf(news).score && momentum.score == MomentumVerdict(priceData).score;
      r := Level1Report(sentiment, social, event, momentum, NewsLabel,
                        map["sentiment_trend" := TrendLabel(trend)],
                        map["news_count" := |news| as real]);
    }
  }

  // ---------------------------------------------------------------------
  // Properties
  // ---------------------------------------------------------------------

  /** Every classified article is counted in exactly one class. */
  lemma {:induction false} CountsPartition(items: seq<Article>)
    ensures CountClass(items, Positive) + CountClass(items, Negative) + CountClass(items, Neutral) == |items|
  {
    if items != [] {
      CountsPartition(items[..|items| - 1]);
    }
  }

  /** Only the first 20 articles are classified: the rest never change the sentiment verdict. */
  lemma SentimentIgnoresLaterArticles(news: seq<Article>, more: seq<Article>)
    requires |news| >= 20 && |more| >= 20 && news[..20] == more[..20]
    requires (|news| >= 10) == (|more| >= 10)
    ensures SentimentVerdict(news) == SentimentVerdict(more)
  {
    assert Prefix(news, 20) == news[..20];
    assert Prefix(more, 20) == more[..20];
  }

  /** The positive-ratio ladder: 25, 20, 15, 8, else 3, and only the lowest band is a risk. */
  lemma RatioBands(positive: nat, total: nat)
    requires 0 < total && positive <= total
    ensures RatioRung(positive, total).score in {25, 20, 15, 8, 3}
    ensures RatioRung(positive, total).score == 25 <==> 2 * positive >= total
    ensures RatioRung(positive, total).score == 3 <==> 5 * positive < total
    ensures RatioRung(positive, total).risks != [] <==> RatioRung(positive, total).score == 3
  {
    var ratio := (positive as real) / (total as real);
    DivideCompare(positive as real, total as real, 0.5);
    DivideCompare(positive as real, total as real, 0.4);
    DivideCompare(positive as real, total as real, 0.3);
    DivideCompare(positive as real, total as real, 0.2);
  }

  lemma DivideCompare(a: real, b: real, c: real)
    requires b > 0.0
    ensures a / b >= c <==> a >= c * b
  {
    assert (a / b) * b == a;
    if a / b >= c {
      assert (a / b) * b >= c * b;
    } else {
      assert (a / b) * b < c * b;
    }
  }

  /** The event deductions total at most 25, so the score never needs the floor at 0. */
  lemma EventNeverFloored(earnings: int, dividend: int, meeting: int, offering: int, lawsuit: int, executive: int)
    ensures 0 <= EventDeductions(earnings, dividend, meeting, offering, lawsuit, executive).score <= 25
  {
    assert -3 <= EarningsRung(earnings).score <= 0;
    assert -8 <= OfferingRung(offering).score <= 0;
    assert -10 <= LawsuitRung(lawsuit).score <= 0;
    assert -4 <= ExecutiveRung(executive).score <= 0;
  }

  /** Each event rung records a risk exactly when it deducts. */
  lemma EventRungRisks(n: int)
    ensures EarningsRung(n).risks != [] <==> EarningsRung(n).score < 0
    ensures OfferingRung(n).risks != [] <==> OfferingRung(n).score < 0
    ensures LawsuitRung(n).risks != [] <==> LawsuitRung(n).score < 0
    ensures ExecutiveRung(n).risks != [] <==> ExecutiveRung(n).score < 0
    ensures EarningsRung(n).score <= 0 && OfferingRung(n).score <= 0
    ensures LawsuitRung(n).score <= 0 && ExecutiveRung(n).score <= 0
    ensures NoEventRisk !in EarningsRung(n).signals && NoEventRisk !in ExecutiveRung(n).signals
  {
  }

  /** The deductions score 25 plus the four deducting rungs. */
  lemma DeductionsScore(earnings: int, dividend: int, meeting: int, offering: int, lawsuit: int, executive: int)
    ensures EventDeductions(earnings, dividend, meeting, offering, lawsuit, executive).score
         == 25 + EarningsRung(earnings).score + OfferingRung(offering).score
            + LawsuitRung(lawsuit).score + ExecutiveRung(executive).score
  {
  }

  /** The four deducting rungs record the only risks of the deductions. */
  lemma DeductionsRisks(earnings: int, dividend: int, meeting: int, offering: int, lawsuit: int, executive: int)
    ensures EventDeductions(earnings, dividend, meeting, offering, lawsuit, executive).risks
         == EarningsRung(earnings).risks + OfferingRung(offering).risks
            + LawsuitRung(lawsuit).risks + ExecutiveRung(executive).risks
  {
  }

  /** The closing note is not among the signals of the deductions themselves. */
  lemma DeductionsOmitNote(earnings: int, dividend: int, meeting: int, offering: int, lawsuit: int, executive: int)
    ensures NoEventRisk !in EventDeductions(earnings, dividend, meeting, offering, lawsuit, executive).signals
  {
    EventRungRisks(earnings);
    EventRungRisks(executive);
  }

  /**
   * "특별한 이벤트 리스크 없음" is emitted exactly when no risk was recorded,
   * which is exactly when nothing was deducted.
   */
  lemma NoEventRiskExactly(earnings: int, dividend: int, meeting: int, offering: int, lawsuit: int, executive: int)
    ensures var p := EventVerdict(earnings, dividend, meeting, offering, lawsuit, executive);
            (NoEventRisk in p.signals <==> p.risks == []) && (p.risks == [] <==> p.score == 25)
  {
    var d := EventDeductions(earnings, dividend, meeting, offering, lawsuit, executive);
    DeductionsScore(earnings, dividend, meeting, offering, lawsuit, executive);
    DeductionsRisks(earnings, dividend, meeting, offering, lawsuit, executive);
    DeductionsOmitNote(earnings, dividend, meeting, offering, lawsuit, executive);
    EventRungRisks(earnings);
    EventRungRisks(offering);
    EventRungRisks(lawsuit);
    EventRungRisks(executive);
    EventNeverFloored(earnings, dividend, meeting, offering, lawsuit, executive);
    assert d.risks == [] <==> d.score == 25;
  }

  /** The social ladders are 15/12/8/4 and 10/7/5/2, so their sum never reaches past 25. */
  lemma SocialBands(ratio: real, volatility: real)
    ensures InterestRung(ratio).score in {15, 12, 8, 4}
    ensures VolatilityRung(volatility).score in {10, 7, 5, 2}
    ensures Then(InterestRung(ratio), VolatilityRung(volatility)).score <= 25
  {
  }

  /** The momentum ladders are 10/8/5/2/0, 8/6/4/2/0 and 7/5/3/1/0, so their sum never reaches past 25. */
  lemma MomentumBands(r5: real, r20: real, change: real)
    ensures ShortReturnRung(r5).score in {10, 8, 5, 2, 0}
    ensures MidReturnRung(r20).score in {8, 6, 4, 2, 0}
    ensures VolumeConfirmRung(change, r5).score in {7, 5, 3, 1, 0}
    ensures Then(Then(ShortReturnRung(r5), MidReturnRung(r20)), VolumeConfirmRung(change, r5)).score <= 25
  {
  }

  /** Short price data gives 12 points with the matching note in the social and momentum parts. */
  lemma ShortPriceDataScoresTwelve(pd: Option<PriceData>)
    requires PriceFine(pd)
    requires pd.None? || |pd.value.days| < 5
    ensures SocialVerdict(pd) == Part(12, [NoSocialData], [])
    ensures MomentumVerdict(pd) == Part(12, [NoPriceData], [])
    ensures SentimentTrend(pd) == Unknown
  {
  }

  /** The source's momentum raises IndexError on a history of 10 to 19 days. */
  lemma MomentumAsWrittenRaisesOnShortHistory()
    ensures var pd := Some(PriceData(seq(15, i => Day(100.0, 1000.0)), 1.0));
            MomentumAsWritten(pd) == IndexError
            && MomentumVerdict(pd) == Part(12, [NoPriceData], [])
  {
  }

  /** Wherever the source's momentum does not raise, the guarded one agrees with it. */
  lemma MomentumCorrectedAgrees(pd: Option<PriceData>)
    requires PriceFine(pd)
    requires MomentumAsWritten(pd).Done?
    ensures MomentumAsWritten(pd).value == MomentumVerdict(pd)
  {
  }

  /** The source's sentiment trend raises IndexError on a history of 10 to 19 days. */
  lemma TrendAsWrittenRaisesOnShortHistory()
    ensures var pd := Some(PriceData(seq(15, i => Day(100.0, 1000.0)), 1.0));
            SentimentTrendAsWritten(pd) == IndexError && SentimentTrend(pd) == Unknown
  {
  }

  /** Wherever the source's sentiment trend does not raise, the guarded one agrees with it. */
  lemma TrendCorrectedAgrees(pd: Option<PriceData>)
    requires PriceFine(pd)
    requires SentimentTrendAsWritten(pd).Done?
    ensures SentimentTrendAsWritten(pd).value == SentimentTrend(pd)
  {
  }

  // ---------------------------------------------------------------------
  // The upper-case event keywords
  // ---------------------------------------------------------------------

  /** The earnings and executive keyword lists as the source spells them. */
  function EventKeywordsAsWritten(k: EventKind): (r: seq<string>)
    ensures k != Earnings && k != Executive ==> r == EventKeywords(k)
    ensures |r| == |EventKeywords(k)|
    ensures forall i :: 0 <= i < |r| ==> Lower(r[i]) == EventKeywords(k)[i]
  {
    match k
    case Earnings => ["실적", "earnings", "EPS", "revenue", "분기", "연간"]
    case Executive => ["CEO", "임원", "퇴임", "취임", "executive"]
    case _ => EventKeywords(k)
  }

  /** Matched against a lowered headline, the source's "EPS" and "CEO" never occur. */
  lemma UpperEventKeywordsNeverMatch(title: string)
    ensures !Contains(Lower(title), EventKeywordsAsWritten(Earnings)[2])
    ensures !Contains(Lower(title), EventKeywordsAsWritten(Executive)[0])
  {
    UpperKeywordNeverMatches(Lower(title), "EPS", 0);
    UpperKeywordNeverMatches(Lower(title), "CEO", 0);
  }

  /** A headline reading just "EPS" is missed by the source's list and counted by the lowered one. */
  lemma EpsHeadlineMissedAsWritten()
    ensures !ContainsAny(Lower("EPS"), EventKeywordsAsWritten(Earnings))
    ensures EventHit("EPS", Earnings)
  {
    var t := Lower("EPS");
    assert t == "eps";
    assert MatchesAt(t, "eps", 0);
    assert EventKeywords(Earnings)[2] == "eps";
    forall k | 0 <= k < |EventKeywordsAsWritten(Earnings)|
      ensures !Contains(t, EventKeywordsAsWritten(Earnings)[k])
    {
      var kw := EventKeywordsAsWritten(Earnings)[k];
      if k == 2 {
        UpperKeywordNeverMatches(t, kw, 0);
      } else {
        forall i | 0 <= i <= |t| - |kw| ensures !MatchesAt(t, kw, i) {
          assert t[i..i + |kw|][0] != kw[0];
        }
      }
    }
  }

  /** With the lowered lists, a headline containing "EPS" or "CEO" in any case is counted. */
  lemma LoweredKeywordsCatchUpperCase(title: string, i: nat)
    requires i + 3 <= |title|
    ensures title[i..i + 3] == "EPS" ==> EventHit(title, Earnings)
    ensures title[i..i + 3] == "CEO" ==> EventHit(title, Executive)
  {
    var t := Lower(title);
    assert t[i..i + 3] == [LowerChar(title[i]), LowerChar(title[i + 1]), LowerChar(title[i + 2])];
    if title[i..i + 3] == "EPS" {
      assert title[i] == 'E' && title[i + 1] == 'P' && title[i + 2] == 'S';
      assert t[i..i + 3] == "eps";
      assert MatchesAt(t, EventKeywords(Earnings)[2], i);
    }
    if title[i..i + 3] == "CEO" {
      assert title[i] == 'C' && title[i + 1] == 'E' && title[i + 2] == 'O';
      assert t[i..i + 3] == "ceo";
      assert MatchesAt(t, EventKeywords(Executive)[0], i);
    }
  }
}
