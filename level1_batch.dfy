// daily_level1_batch.py: the four Level-1 agents run on a fixed list of 25
// Korean stocks; each result keeps the agents' entries and, when none raised,
// their mean score (no consensus).
module Level1Batch {
  import opened Common
  import opened Level1Common

  /** `KOREAN_STOCKS`: (symbol, name) pairs, 20 KOSPI names then 5 KOSDAQ names, all with suffix .KS. */
  const KoreanStocks: seq<(string, string)> := [
    ("005930.KS", "삼성전자"), ("000660.KS", "SK하이닉스"), ("035420.KS", "NAVER"),
    ("005380.KS", "현대차"), ("051910.KS", "LG화학"), ("035720.KS", "카카오"),
    ("006400.KS", "삼성SDI"), ("068270.KS", "셀트리온"), ("005490.KS", "POSCO홀딩스"),
    ("028260.KS", "삼성물산"), ("012450.KS", "한화에어로스페이스"), ("055550.KS", "신한지주"),
    ("105560.KS", "KB금융"), ("138040.KS", "메리츠금융"), ("032830.KS", "삼성생명"),
    ("015760.KS", "한국전력"), ("003670.KS", "포스코퓨처엠"), ("009150.KS", "삼성전기"),
    ("018260.KS", "삼성에스디에스"), ("033780.KS", "KT&G"), ("247540.KS", "에코프로비엠"),
    ("086520.KS", "에코프로"), ("196170.KS", "알테오젠"), ("352820.KS", "하이브"),
    ("259960.KS", "크래프톤")
  ]

  /** `status` 'success' with `avg_score`, or 'error' with the message. */
  datatype BatchStatus = Averaged(avgScore: real) | Failed(error: string)

  datatype BatchResult = BatchResult(symbol: string, name: string, agents: seq<AgentScore>, outcome: BatchStatus)

  /** `analyze_stock` of this runner: the entries of the calls that returned and, if none raised, their mean. */
  function BatchAnalyzed(symbol: string, name: string, runs: AgentRuns): BatchResult
  {
    var agents := Completed(RunnerKeys, RunList(runs));
    var failure := FirstRaised(RunList(runs));
    BatchResult(symbol, name, agents, if failure.Some? then Failed(failure.value) else Averaged(Mean(Scores(agents))))
  }

  method AnalyzeBatchStock(symbol: string, name: string, runs: AgentRuns) returns (result: BatchResult)
    ensures result == BatchAnalyzed(symbol, name, runs)
  {
    var agents, failure := RunAgents(runs);
    if failure.Some? {
      result := BatchResult(symbol, name, agents, Failed(failure.value));
      return;
    }
    result := BatchResult(symbol, name, agents, Averaged(Mean(Scores(agents))));
  }

  /**
   * This runner agrees with the other batch runners on one stock: the same
   * entries, a success exactly when theirs is one, with the same average,
   * and the same error message otherwise.
   */
  lemma BatchAgreesWithAnalyzed(symbol: string, name: string, runs: AgentRuns, market: Option<string>,
                                sector: Option<string>, marketDefault: string)
    ensures var b := BatchAnalyzed(symbol, name, runs);
            var a := Analyzed(Stock(symbol, name, market, sector), runs, marketDefault);
            b.agents == a.agents
            && (b.outcome.Averaged? <==> a.verdict.Scored?)
            && (b.outcome.Averaged? ==> b.outcome.avgScore == a.verdict.avgScore)
            && (b.outcome.Failed? ==> b.outcome.error == a.verdict.error)
  {
  }

  /** A stock of this runner succeeds exactly when all four calls returned, averaging their four totals. */
  lemma BatchSuccessExactly(symbol: string, name: string, runs: AgentRuns)
    ensures BatchAnalyzed(symbol, name, runs).outcome.Averaged?
        <==> runs.tech.Ran? && runs.quant.Ran? && runs.qual.Ran? && runs.news.Ran?
    ensures BatchAnalyzed(symbol, name, runs).outcome.Averaged? ==>
              BatchAnalyzed(symbol, name, runs).outcome.avgScore
              == Mean([ScoreOf(runs.tech.report), ScoreOf(runs.quant.report),
                       ScoreOf(runs.qual.report), ScoreOf(runs.news.report)])
  {
    AnalyzedSuccessExactly(Stock(symbol, name, None, None), runs, "");
    BatchAgreesWithAnalyzed(symbol, name, runs, None, None, "");
  }

  /** `len([r for r in results if r.get('status') == 'success'])`. */
  function SuccessCount(results: seq<BatchResult>): (n: nat)
    ensures n <= |results|
  {
    if results == [] then 0
    else (if results[0].outcome.Averaged? then 1 else 0) + SuccessCount(results[1..])
  }

  /** Every stock succeeds exactly when the count equals the total. */
  lemma {:induction false} SuccessCountAll(results: seq<BatchResult>)
    ensures SuccessCount(results) == |results| <==> forall k :: 0 <= k < |results| ==> results[k].outcome.Averaged?
  {
    if results != [] {
      SuccessCountAll(results[1..]);
      if forall k :: 0 <= k < |results| ==> results[k].outcome.Averaged? {
        forall k | 0 <= k < |results[1..]| ensures results[1..][k].outcome.Averaged? {
          assert results[1..][k] == results[k + 1];
        }
      }
      if SuccessCount(results) == |results| {
        assert SuccessCount(results[1..]) <= |results[1..]|;
        forall k | 0 <= k < |results| ensures results[k].outcome.Averaged? {
          if k > 0 {
            assert results[k] == results[1..][k - 1];
          }
        }
      }
    }
  }

  datatype BatchRecord = BatchRecord(total: nat, success: nat, results: seq<BatchResult>)

  /** `main`: every listed stock analysed in order, then the total and the success count. */
  method RunDailyBatch(world: (string, string) -> AgentRuns) returns (record: BatchRecord)
    ensures record.total == |KoreanStocks| == |record.results| == 25
    ensures forall k :: 0 <= k < |KoreanStocks| ==>
              record.results[k] == BatchAnalyzed(KoreanStocks[k].0, KoreanStocks[k].1,
                                                 world(KoreanStocks[k].0, KoreanStocks[k].1))
    ensures record.success == SuccessCount(record.results) <= record.total
  {
    var stocks := KoreanStocks;
    var results: seq<BatchResult> := [];
    var i := 0;
    while i < |stocks|
      invariant 0 <= i <= |stocks|
      invariant |results| == i
      invariant forall k :: 0 <= k < i ==>
                  results[k] == BatchAnalyzed(stocks[k].0, stocks[k].1, world(stocks[k].0, stocks[k].1))
    {
      var (symbol, name) := stocks[i];
      var result := AnalyzeBatchStock(symbol, name, world(symbol, name));
      results := results + [result];
      i := i + 1;
    }
    record := BatchRecord(|stocks|, SuccessCount(results), results);
  }
}
