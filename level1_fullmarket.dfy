// daily_level1_fullmarket.py: the built-in KOSPI and KOSDAQ lists, the
// selection of a prefix of each, the market tag, the analysis of every
// selected stock, the success/failed counts, the top 15 and the per-sector
// averages of the successful results.
module Level1FullMarket {
  import opened Common
  import opened Sorting
  import opened Level1Common

  const ExtendedKospi: seq<Stock> := [
    Stock("005930.KS", "삼성전자", None, Some("반도체")),
    Stock("000660.KS", "SK하이닉스", None, Some("반도체")),
    Stock("035420.KS", "NAVER", None, Some("플랫폼")),
    Stock("005380.KS", "현대차", None, Some("자동차")),
    Stock("051910.KS", "LG화학", None, Some("화학")),
    Stock("035720.KS", "카카오", None, Some("플랫폼")),
    Stock("006400.KS", "삼성SDI", None, Some("배터리")),
    Stock("068270.KS", "셀트리온", None, Some("바이오")),
    Stock("005490.KS", "POSCO홀딩스", None, Some("철강")),
    Stock("028260.KS", "삼성물산", None, Some("무역")),
    Stock("012450.KS", "한화에어로스페이스", None, Some("방산")),
    Stock("055550.KS", "신한지주", None, Some("금융")),
    Stock("105560.KS", "KB금융", None, Some("금융")),
    Stock("138040.KS", "메리츠금융", None, Some("금융")),
    Stock("032830.KS", "삼성생명", None, Some("보험")),
    Stock("015760.KS", "한국전력", None, Some("전력")),
    Stock("003670.KS", "포스코퓨처엠", None, Some("배터리")),
    Stock("009150.KS", "삼성전기", None, Some("전자부품")),
    Stock("018260.KS", "삼성에스디에스", None, Some("IT서비스")),
    Stock("033780.KS", "KT&G", None, Some("담/유통")),
    Stock("011200.KS", "HMM", None, Some("해운")),
    Stock("086790.KS", "하나금융지주", None, Some("금융")),
    Stock("010130.KS", "고려아연", None, Some("비철금속")),
    Stock("009540.KS", "한국조선해양", None, Some("조선")),
    Stock("017670.KS", "SK텔레콤", None, Some("통신")),
    Stock("030200.KS", "KT", None, Some("통신")),
    Stock("096770.KS", "SK이노베이션", None, Some("에너지")),
    Stock("034730.KS", "SK", None, Some("지주사")),
    Stock("000270.KS", "기아", None, Some("자동차")),
    Stock("066570.KS", "LG전자", None, Some("전자")),
    Stock("051900.KS", "LG생활건강", None, Some("생활용품")),
    Stock("003550.KS", "LG", None, Some("지주사")),
    Stock("004020.KS", "현대제철", None, Some("철강")),
    Stock("000810.KS", "삼성화재", None, Some("보험")),
    Stock("024110.KS", "기업은행", None, Some("금융")),
    Stock("032640.KS", "LG유플러스", None, Some("통신")),
    Stock("010950.KS", "S-Oil", None, Some("정유")),
    Stock("011070.KS", "LG이노텍", None, Some("전자부품")),
    Stock("042660.KS", "한화오션", None, Some("조선"))
  ]

  const ExtendedKosdaq: seq<Stock> := [
    Stock("247540.KS", "에코프로비엠", None, Some("2차전지")),
    Stock("086520.KS", "에코프로", None, Some("2차전지")),
    Stock("196170.KS", "알테오젠", None, Some("바이오")),
    Stock("352820.KS", "하이브", None, Some("엔터")),
    Stock("259960.KS", "크래프톤", None, Some("게임")),
    Stock("207940.KS", "삼성바이오로직스", None, Some("바이오")),
    Stock("028300.KS", "HLB", None, Some("바이오")),
    Stock("145020.KS", "휴젤", None, Some("바이오")),
    Stock("214150.KS", "클리오", None, Some("화장품")),
    Stock("095660.KS", "네오위즈", None, Some("게임")),
    Stock("041140.KS", "넥슨게임즈", None, Some("게임")),
    Stock("263750.KS", "펄어비스", None, Some("게임")),
    Stock("293490.KS", "카카오게임즈", None, Some("게임")),
    Stock("357780.KS", "솔브레인", None, Some("반도체")),
    Stock("222800.KS", "심텍", None, Some("반도체")),
    Stock("240810.KS", "원익IPS", None, Some("반도체")),
    Stock("036830.KS", "셀트리온제약", None, Some("바이오")),
    Stock("068760.KS", "셀트리온제약", None, Some("바이오")),
    Stock("122900.KS", "아이마켓코리아", None, Some("플랫폼")),
    Stock("278280.KS", "천보", None, Some("2차전지"))
  ]

  /** `stocks[:count] if count else stocks`: a missing or zero count takes the whole list. */
  function Selected(stocks: seq<Stock>, count: Option<int>): (r: seq<Stock>)
    ensures (count.None? || count.value == 0) ==> r == stocks
    ensures count.Some? && count.value > 0 ==> r == stocks[..Min(count.value, |stocks|)]
  {
    if count.None? || count.value == 0 then stocks else Prefix(stocks, count.value)
  }

  /** The stocks, each carrying the market tag. */
  function Tagged(stocks: seq<Stock>, market: string): (tagged: seq<Stock>)
    ensures |tagged| == |stocks|
    ensures forall i :: 0 <= i < |stocks| ==> tagged[i] == stocks[i].(market := Some(market))
  {
    seq(|stocks|, i requires 0 <= i < |stocks| => stocks[i].(market := Some(market)))
  }

  /** `for s in stocks: s['market'] = market`. */
  method TagMarket(stocks: seq<Stock>, market: string) returns (tagged: seq<Stock>)
    ensures tagged == Tagged(stocks, market)
  {
    tagged := [];
    var i := 0;
    while i < |stocks|
      invariant 0 <= i <= |stocks| && |tagged| == i
      invariant forall k :: 0 <= k < i ==> tagged[k] == stocks[k].(market := Some(market))
    {
      tagged := tagged + [stocks[i].(market := Some(market))];
      i := i + 1;
    }
    assert tagged == Tagged(stocks, market);
  }

  /** The record `run_full_analysis` writes. */
  datatype FullRecord = FullRecord(total: nat, success: nat, failed: int, kospiCount: nat, kosdaqCount: nat,
                                   results: seq<StockResult>)

  // ---------------------------------------------------------------------
  // Sector averages
  // ---------------------------------------------------------------------

  /** The sectors of `results`, each once, in order of first appearance (dict insertion order). */
  function SectorOrder(results: seq<StockResult>): seq<string>
  {
    if results == [] then []
    else
      var order := SectorOrder(results[..|results| - 1]);
      var sector := results[|results| - 1].sector;
      if sector in order then order else order + [sector]
  }

  /** The averages of the results in `sector`, in result order. */
  function SectorScores(results: seq<StockResult>, sector: string): seq<real>
  {
    if results == [] then []
    else SectorScores(results[..|results| - 1], sector)
         + (if results[|results| - 1].sector == sector then [AvgScore(results[|results| - 1])] else [])
  }

  /**
   * The sector order lists every sector of the results exactly once, and a
   * listed sector always has at least one score, so its mean never divides
   * by zero.
   */
  lemma {:induction false} SectorOrderExactly(results: seq<StockResult>)
    ensures forall i, j :: 0 <= i < j < |SectorOrder(results)| ==> SectorOrder(results)[i] != SectorOrder(results)[j]
    ensures forall sector :: sector in SectorOrder(results) <==> exists k :: 0 <= k < |results| && results[k].sector == sector
    ensures forall sector :: sector in SectorOrder(results) <==> |SectorScores(results, sector)| > 0
  {
    if results != [] {
      var init := results[..|results| - 1];
      SectorOrderExactly(init);
      forall sector ensures sector in SectorOrder(results) <==> exists k :: 0 <= k < |results| && results[k].sector == sector {
        if exists k :: 0 <= k < |init| && init[k].sector == sector {
          var k :| 0 <= k < |init| && init[k].sector == sector;
          assert results[k] == init[k];
        }
        if exists k :: 0 <= k < |results| && results[k].sector == sector {
          var k :| 0 <= k < |results| && results[k].sector == sector;
          if k < |init| {
            assert init[k] == results[k];
          }
        }
      }
    }
  }

  /** Python `sum(scores) / len(scores)` over reals. */
  function MeanReal(s: seq<real>): real
  {
    if s == [] then 0.0 else SumReal(s) / (|s| as real)
  }

  datatype SectorMean = SectorMean(sector: string, mean: real, count: nat)

  function ByMean(m: SectorMean): Rank
  {
    Rank(0, m.mean)
  }

  /** The sector loop: `sector_scores[sector].append(avg_score)` per successful result. */
  method GroupBySector(successes: seq<StockResult>) returns (order: seq<string>, scores: map<string, seq<real>>)
    ensures order == SectorOrder(successes)
    ensures forall sector :: sector in scores <==> sector in order
    ensures forall sector :: sector in scores ==> scores[sector] == SectorScores(successes, sector)
  {
    order := [];
    scores := map[];
    var i := 0;
    while i < |successes|
      invariant 0 <= i <= |successes|
      invariant order == SectorOrder(successes[..i])
      invariant forall sector :: sector in scores <==> sector in order
      invariant forall sector :: sector in scores ==> scores[sector] == SectorScores(successes[..i], sector)
    {
      var sector := successes[i].sector;
      var avg := AvgScore(successes[i]);
      SectorStep(successes, i);
      if sector !in scores {
        SectorOrderExactly(successes[..i]);
        scores := scores[sector := []];
        order := order + [sector];
      }
      scores := scores[sector := scores[sector] + [avg]];
      i := i + 1;
    }
    assert successes[..|successes|] == successes;
  }

  /** Grouping one more result: its sector joins the order if new, and only that sector gains a score. */
  lemma SectorStep(results: seq<StockResult>, i: nat)
    requires i < |results|
    ensures var sector := results[i].sector;
            SectorOrder(results[..i + 1])
            == if sector in SectorOrder(results[..i]) then SectorOrder(results[..i]) else SectorOrder(results[..i]) + [sector]
    ensures forall other :: SectorScores(results[..i + 1], other)
                            == SectorScores(results[..i], other) + (if other == results[i].sector then [AvgScore(results[i])] else [])
  {
    assert results[..i + 1][..i] == results[..i];
  }

  /** One row per sector: its name, mean average and number of stocks. */
  function SectorRows(order: seq<string>, scores: map<string, seq<real>>): (rows: seq<SectorMean>)
    requires forall sector :: sector in order ==> sector in scores
    ensures |rows| == |order|
    ensures forall k :: 0 <= k < |order| ==>
              rows[k] == SectorMean(order[k], MeanReal(scores[order[k]]), |scores[order[k]]|)
  {
    seq(|order|, k requires 0 <= k < |order| => SectorMean(order[k], MeanReal(scores[order[k]]), |scores[order[k]]|))
  }

  /**
   * The sector averages of the successful results, sorted by mean, highest
   * first (Python's stable sort keeps first-appearance order among equal
   * means): one row per sector, each the mean of that sector's averages.
   */
  method SectorAverages(successes: seq<StockResult>) returns (table: seq<SectorMean>)
    ensures |table| == |SectorOrder(successes)|
    ensures SortedBy(table, ByMean)
    ensures forall m :: m in table ==>
              m.sector in SectorOrder(successes) && m.count == |SectorScores(successes, m.sector)| > 0
              && m.mean == MeanReal(SectorScores(successes, m.sector))
    ensures forall sector :: sector in SectorOrder(successes) ==> exists m :: m in table && m.sector == sector
  {
    var order, scores := GroupBySector(successes);
    SectorOrderExactly(successes);
    var rows := SectorRows(order, scores);
    table := SortBy(rows, ByMean);
    SortByPermutes(rows, ByMean);
    SortBySorted(rows, ByMean);
    forall m | m in table
      ensures m.sector in SectorOrder(successes) && m.count == |SectorScores(successes, m.sector)| > 0
              && m.mean == MeanReal(SectorScores(successes, m.sector))
    {
      SortByMembers(rows, ByMean, m);
      var k :| 0 <= k < |rows| && rows[k] == m;
      assert order[k] in SectorOrder(successes);
    }
    forall sector | sector in SectorOrder(successes) ensures exists m :: m in table && m.sector == sector {
      var k :| 0 <= k < |order| && order[k] == sector;
      SortByMembers(rows, ByMean, rows[k]);
    }
  }

  /**
   * The body of `run_full_analysis` once the two lists are chosen: each
   * tagged with its market, KOSPI first; every stock analysed in that
   * order; the counts; the top 15; and the sector averages of the
   * successful results.
   */
  method RunOnLists(kospiList: seq<Stock>, kosdaqList: seq<Stock>, world: (string, string) -> AgentRuns)
    returns (stocks: seq<Stock>, record: FullRecord, top: seq<StockResult>, sectors: seq<SectorMean>)
    ensures record.kospiCount == |kospiList| && record.kosdaqCount == |kosdaqList|
    ensures |stocks| == record.total == record.kospiCount + record.kosdaqCount == |record.results|
    ensures stocks == Tagged(kospiList, "KOSPI") + Tagged(kosdaqList, "KOSDAQ")
    ensures forall i :: 0 <= i < |stocks| ==>
              record.results[i] == Analyzed(stocks[i], world(stocks[i].symbol, stocks[i].name), "KOSPI")
    ensures record.success == |Successes(record.results)| && 0 <= record.failed == record.total - record.success
    ensures top == Top(record.results, 15) && |top| <= 15
    ensures SortedBy(sectors, ByMean)
    ensures forall m :: m in sectors ==> m.count > 0 && m.mean == MeanReal(SectorScores(Successes(record.results), m.sector))
  {
    var kospi := TagMarket(kospiList, "KOSPI");
    var kosdaq := TagMarket(kosdaqList, "KOSDAQ");
    stocks := kospi + kosdaq;
    var results: seq<StockResult> := [];
    var i := 0;
    while i < |stocks|
      invariant 0 <= i <= |stocks| && |results| == i
      invariant forall k :: 0 <= k < i ==> results[k] == Analyzed(stocks[k], world(stocks[k].symbol, stocks[k].name), "KOSPI")
    {
      var result := AnalyzeStock(stocks[i], world(stocks[i].symbol, stocks[i].name), "KOSPI");
      results := results + [result];
      i := i + 1;
    }
    var successes := Successes(results);
    record := FullRecord(|stocks|, |successes|, |stocks| - |successes|, |kospi|, |kosdaq|, results);
    top := Top(results, 15);
    TopShape(results, 15);
    sectors := SectorAverages(successes);
  }

  /**
   * `run_full_analysis`: a prefix of each built-in list (all of it when the
   * count is missing or 0), then the run over those lists.
   */
  method RunFullAnalysis(kospiCount: Option<int>, kosdaqCount: Option<int>, world: (string, string) -> AgentRuns)
    returns (stocks: seq<Stock>, record: FullRecord, top: seq<StockResult>, sectors: seq<SectorMean>)
    ensures record.kospiCount == |Selected(ExtendedKospi, kospiCount)|
    ensures record.kosdaqCount == |Selected(ExtendedKosdaq, kosdaqCount)|
    ensures |stocks| == record.total == record.kospiCount + record.kosdaqCount == |record.results|
    ensures stocks == Tagged(Selected(ExtendedKospi, kospiCount), "KOSPI") + Tagged(Selected(ExtendedKosdaq, kosdaqCount), "KOSDAQ")
    ensures forall i :: 0 <= i < |stocks| ==>
              record.results[i] == Analyzed(stocks[i], world(stocks[i].symbol, stocks[i].name), "KOSPI")
    ensures record.success == |Successes(record.results)| && 0 <= record.failed == record.total - record.success
    ensures top == Top(record.results, 15) && |top| <= 15
    ensures SortedBy(sectors, ByMean)
    ensures forall m :: m in sectors ==> m.count > 0 && m.mean == MeanReal(SectorScores(Successes(record.results), m.sector))
  {
    var kospiList := Selected(ExtendedKospi, kospiCount);
    var kosdaqList := Selected(ExtendedKosdaq, kosdaqCount);
    stocks, record, top, sectors := RunOnLists(kospiList, kosdaqList, world);
  }

  lemma BuiltInListSizes()
    ensures |ExtendedKospi| == 39 && |ExtendedKosdaq| == 20
    ensures |Selected(ExtendedKospi, None)| == 39 && |Selected(ExtendedKospi, Some(10))| == 10
  {
  }
}
