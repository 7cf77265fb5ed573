// daily_level1_fdr.py: the stock lists read from FinanceDataReader (or the
// built-in fallback lists when the listing cannot be read), and the batch
// that analyses every listed stock, counts the outcomes and ranks the top 10.
module Level1Fdr {
  import opened Common
  import opened Sorting
  import opened Level1Common

  /** One row of `fdr.StockListing(market)`; a missing Code or Name reads as "". */
  datatype ListingRow = ListingRow(code: string, name: string, sector: Option<string>)

  /** The stock dict made from a listing row that has both a code and a name. */
  function FromRow(row: ListingRow, suffix: string, market: string): Stock
  {
    Stock(row.code + suffix, row.name, Some(market), Some(OptionOr(row.sector, "Unknown")))
  }

  predicate Complete(row: ListingRow)
  {
    row.code != "" && row.name != ""
  }

  /** The listing rows, in order, without those lacking a code or a name. */
  function Listed(rows: seq<ListingRow>, suffix: string, market: string): seq<Stock>
  {
    if rows == [] then []
    else Listed(rows[..|rows| - 1], suffix, market)
         + (if Complete(rows[|rows| - 1]) then [FromRow(rows[|rows| - 1], suffix, market)] else [])
  }

  /** The loop of `get_kospi_stocks` / `get_kosdaq_stocks` over `listing.head(limit)`. */
  method ListStocks(rows: seq<ListingRow>, limit: int, suffix: string, market: string) returns (stocks: seq<Stock>)
    ensures stocks == Listed(Prefix(rows, limit), suffix, market)
  {
    var head := Prefix(rows, limit);
    stocks := [];
    var i := 0;
    while i < |head|
      invariant 0 <= i <= |head|
      invariant stocks == Listed(head[..i], suffix, market)
    {
      assert head[..i + 1][..i] == head[..i];
      if Complete(head[i]) {
        stocks := stocks + [FromRow(head[i], suffix, market)];
      }
      i := i + 1;
    }
    assert head[..|head|] == head;
  }

  /**
   * A listed stock is made from a complete row, carries the market's suffix
   * and tag and a sector ('Unknown' when the row has none); every complete
   * row is listed.
   */
  lemma {:induction false} ListedExactly(rows: seq<ListingRow>, suffix: string, market: string)
    ensures |Listed(rows, suffix, market)| <= |rows|
    ensures forall s :: s in Listed(rows, suffix, market) <==>
              exists j :: 0 <= j < |rows| && Complete(rows[j]) && s == FromRow(rows[j], suffix, market)
  {
    if rows != [] {
      var init := rows[..|rows| - 1];
      ListedExactly(init, suffix, market);
      forall s ensures s in Listed(rows, suffix, market) <==>
                       exists j :: 0 <= j < |rows| && Complete(rows[j]) && s == FromRow(rows[j], suffix, market) {
        if s in Listed(init, suffix, market) {
          var j :| 0 <= j < |init| && Complete(init[j]) && s == FromRow(init[j], suffix, market);
          assert rows[j] == init[j];
        }
        if exists j :: 0 <= j < |rows| && Complete(rows[j]) && s == FromRow(rows[j], suffix, market) {
          var j :| 0 <= j < |rows| && Complete(rows[j]) && s == FromRow(rows[j], suffix, market);
          if j < |rows| - 1 {
            assert init[j] == rows[j];
          }
        }
      }
    }
  }

  /** Every listed stock's symbol is a non-empty code followed by the suffix. */
  lemma ListedSymbols(rows: seq<ListingRow>, suffix: string, market: string, s: Stock)
    requires s in Listed(rows, suffix, market)
    ensures |s.symbol| > |suffix| && s.symbol[|s.symbol| - |suffix|..] == suffix
    ensures s.name != "" && s.market == Some(market) && s.sector.Some?
  {
    ListedExactly(rows, suffix, market);
    var j :| 0 <= j < |rows| && Complete(rows[j]) && s == FromRow(rows[j], suffix, market);
    assert s.symbol == rows[j].code + suffix;
  }

  const FallbackKospi: seq<Stock> := [
    Stock("005930.KS", "삼성전자", Some("KOSPI"), None),
    Stock("000660.KS", "SK하이닉스", Some("KOSPI"), None),
    Stock("035420.KS", "NAVER", Some("KOSPI"), None),
    Stock("005380.KS", "현대차", Some("KOSPI"), None),
    Stock("051910.KS", "LG화학", Some("KOSPI"), None),
    Stock("035720.KS", "카카오", Some("KOSPI"), None),
    Stock("006400.KS", "삼성SDI", Some("KOSPI"), None),
    Stock("068270.KS", "셀트리온", Some("KOSPI"), None),
    Stock("005490.KS", "POSCO홀딩스", Some("KOSPI"), None),
    Stock("028260.KS", "삼성물산", Some("KOSPI"), None)
  ]

  /** The KOSDAQ fallback list; its symbols carry the suffix .KS, as written. */
  const FallbackKosdaq: seq<Stock> := [
    Stock("247540.KS", "에코프로비엠", Some("KOSDAQ"), None),
    Stock("086520.KS", "에코프로", Some("KOSDAQ"), None),
    Stock("196170.KS", "알테오젠", Some("KOSDAQ"), None),
    Stock("352820.KS", "하이브", Some("KOSDAQ"), None),
    Stock("259960.KS", "크래프톤", Some("KOSDAQ"), None)
  ]

  /**
   * `get_kospi_stocks(limit)`: the listing's complete rows among the first
   * `limit`, or, when FinanceDataReader is missing or the listing fails
   * (`listing` is None), the first `limit` fallback entries.
   */
  method GetKospiStocks(listing: Option<seq<ListingRow>>, limit: int) returns (stocks: seq<Stock>)
    ensures listing.None? ==> stocks == Prefix(FallbackKospi, limit)
    ensures listing.Some? ==> stocks == Listed(Prefix(listing.value, limit), ".KS", "KOSPI")
    ensures forall i :: 0 <= i < |stocks| ==> stocks[i].market == Some("KOSPI")
  {
    if listing.None? {
      stocks := Prefix(FallbackKospi, limit);
    } else {
      stocks := ListStocks(listing.value, limit, ".KS", "KOSPI");
      forall i | 0 <= i < |stocks| ensures stocks[i].market == Some("KOSPI") {
        ListedSymbols(Prefix(listing.value, limit), ".KS", "KOSPI", stocks[i]);
      }
    }
  }

  /** `get_kosdaq_stocks(limit)`, the same with suffix .KQ and the KOSDAQ fallback. */
  method GetKosdaqStocks(listing: Option<seq<ListingRow>>, limit: int) returns (stocks: seq<Stock>)
    ensures listing.None? ==> stocks == Prefix(FallbackKosdaq, limit)
    ensures listing.Some? ==> stocks == Listed(Prefix(listing.value, limit), ".KQ", "KOSDAQ")
    ensures forall i :: 0 <= i < |stocks| ==> stocks[i].market == Some("KOSDAQ")
  {
    if listing.None? {
      stocks := Prefix(FallbackKosdaq, limit);
    } else {
      stocks := ListStocks(listing.value, limit, ".KQ", "KOSDAQ");
      forall i | 0 <= i < |stocks| ensures stocks[i].market == Some("KOSDAQ") {
        ListedSymbols(Prefix(listing.value, limit), ".KQ", "KOSDAQ", stocks[i]);
      }
    }
  }

  /** `get_all_stocks`: the KOSPI stocks, then the KOSDAQ stocks. */
  method GetAllStocks(kospiListing: Option<seq<ListingRow>>, kosdaqListing: Option<seq<ListingRow>>,
                      kospiLimit: int, kosdaqLimit: int)
    returns (stocks: seq<Stock>, kospiCount: nat)
    ensures kospiCount <= |stocks|
    ensures forall i :: 0 <= i < kospiCount ==> stocks[i].market == Some("KOSPI")
    ensures forall i :: kospiCount <= i < |stocks| ==> stocks[i].market == Some("KOSDAQ")
    ensures kospiListing.None? ==> stocks[..kospiCount] == Prefix(FallbackKospi, kospiLimit)
    ensures kosdaqListing.None? ==> stocks[kospiCount..] == Prefix(FallbackKosdaq, kosdaqLimit)
    ensures kospiListing.Some? ==> stocks[..kospiCount] == Listed(Prefix(kospiListing.value, kospiLimit), ".KS", "KOSPI")
    ensures kosdaqListing.Some? ==> stocks[kospiCount..] == Listed(Prefix(kosdaqListing.value, kosdaqLimit), ".KQ", "KOSDAQ")
  {
    var kospi := GetKospiStocks(kospiListing, kospiLimit);
    var kosdaq := GetKosdaqStocks(kosdaqListing, kosdaqLimit);
    stocks := kospi + kosdaq;
    kospiCount := |kospi|;
    assert stocks[..kospiCount] == kospi && stocks[kospiCount..] == kosdaq;
  }

  /** The batch record `run_batch` writes. */
  datatype BatchRecord = BatchRecord(total: nat, success: nat, kospiCount: nat, kosdaqCount: nat,
                                     results: seq<StockResult>)

  /**
   * `run_batch`: every stock analysed in list order (a stock without a market
   * tag is reported under 'UNKNOWN'), then the success and per-market counts
   * and the top 10 by average.  `world` gives the agents' outcome per
   * (symbol, name).
   */
  method RunBatch(kospiListing: Option<seq<ListingRow>>, kosdaqListing: Option<seq<ListingRow>>,
                  kospiLimit: int, kosdaqLimit: int, world: (string, string) -> AgentRuns)
    returns (stocks: seq<Stock>, record: BatchRecord, top: seq<StockResult>)
    ensures record.total == |stocks| == |record.results|
    ensures forall k :: 0 <= k < |stocks| ==>
              record.results[k] == Analyzed(stocks[k], world(stocks[k].symbol, stocks[k].name), "UNKNOWN")
    ensures record.success == |Successes(record.results)| <= record.total
    ensures record.kospiCount == CountMarket(record.results, "KOSPI")
    ensures record.kosdaqCount == CountMarket(record.results, "KOSDAQ")
    ensures record.kospiCount + record.kosdaqCount == record.total
    ensures top == Top(record.results, 10) && |top| <= 10
  {
    var kospiCount;
    stocks, kospiCount := GetAllStocks(kospiListing, kosdaqListing, kospiLimit, kosdaqLimit);
    record, top := AnalyzeAll(stocks, kospiCount, world);
  }

  /**
   * The analysis loop of `run_batch` over the gathered stocks, whose first
   * `kospiCount` are KOSPI and the rest KOSDAQ: one result per stock, the
   * counts, and the ten best.
   */
  method AnalyzeAll(stocks: seq<Stock>, kospiCount: nat, world: (string, string) -> AgentRuns)
    returns (record: BatchRecord, top: seq<StockResult>)
    requires kospiCount <= |stocks|
    requires forall i :: 0 <= i < |stocks| ==> stocks[i].market == Some(if i < kospiCount then "KOSPI" else "KOSDAQ")
    ensures record.total == |stocks| == |record.results|
    ensures forall k :: 0 <= k < |stocks| ==>
              record.results[k] == Analyzed(stocks[k], world(stocks[k].symbol, stocks[k].name), "UNKNOWN")
    ensures record.success == |Successes(record.results)| <= record.total
    ensures record.kospiCount == kospiCount && record.kosdaqCount == |stocks| - kospiCount
    ensures record.kospiCount == CountMarket(record.results, "KOSPI")
    ensures record.kosdaqCount == CountMarket(record.results, "KOSDAQ")
    ensures top == Top(record.results, 10) && |top| <= 10
  {
    var results: seq<StockResult> := [];
    var i := 0;
    while i < |stocks|
      invariant 0 <= i <= |stocks|
      invariant |results| == i
      invariant forall k :: 0 <= k < i ==> results[k] == Analyzed(stocks[k], world(stocks[k].symbol, stocks[k].name), "UNKNOWN")
      invariant forall k :: 0 <= k < i ==> results[k].market == (if k < kospiCount then "KOSPI" else "KOSDAQ")
    {
      var result := AnalyzeStock(stocks[i], world(stocks[i].symbol, stocks[i].name), "UNKNOWN");
      results := results + [result];
      i := i + 1;
    }
    TaggedCounts(results, kospiCount);
    record := BatchRecord(|stocks|, |Successes(results)|, CountMarket(results, "KOSPI"), CountMarket(results, "KOSDAQ"), results);
    top := Top(results, 10);
    TopShape(results, 10);
  }

  /** Results whose first n are KOSPI and the rest KOSDAQ count n and |results| - n. */
  lemma {:induction false} TaggedCounts(results: seq<StockResult>, n: nat)
    requires n <= |results|
    requires forall k :: 0 <= k < |results| ==> results[k].market == (if k < n then "KOSPI" else "KOSDAQ")
    ensures CountMarket(results, "KOSPI") == n && CountMarket(results, "KOSDAQ") == |results| - n
  {
    if results != [] {
      TaggedCounts(results[1..], if n == 0 then 0 else n - 1);
    }
  }
}
