// What the Level-1 runners share: how one agent call ends, the per-agent
// `{'score', 'rec'}` entry read off its result with the defaults 0 and HOLD,
// the four calls in their fixed order with the first exception ending the
// block, the mean of the recorded scores, vote counts and the two consensus
// rules (with and without a SELL branch).
module Level1Common {
  import opened Common
  import opened Sorting

  /** How one agent's `analyze()` call ended: it returned a record, or it raised. */
  datatype AgentRun = Ran(report: AgentReport) | Raised(message: string)

  /** The four agent calls one stock gets, in call order. */
  datatype AgentRuns = AgentRuns(tech: AgentRun, quant: AgentRun, qual: AgentRun, news: AgentRun)

  function RunList(runs: AgentRuns): (s: seq<AgentRun>)
    ensures |s| == 4
  {
    [runs.tech, runs.quant, runs.qual, runs.news]
  }

  /** `r.get('total_score', 0)`: an error record has no total. */
  function ScoreOf(r: AgentReport): int
  {
    if r.Report? then r.total else 0
  }

  /** `r.get('recommendation', 'HOLD')`. */
  function RecOf(r: AgentReport): Rec
  {
    if r.Report? then r.rec else Hold
  }

  /** One `result['agents'][key] = {'score': ..., 'rec': ...}` entry. */
  datatype AgentScore = AgentScore(key: string, score: int, rec: Rec)

  function Entry(key: string, r: AgentReport): AgentScore
  {
    AgentScore(key, ScoreOf(r), RecOf(r))
  }

  /** The agent keys the batch runners use, in call order. */
  const RunnerKeys: seq<string> := ["TECH", "QUANT", "QUAL", "NEWS"]

  /** The entries recorded before the first call that raised. */
  function Completed(keys: seq<string>, runs: seq<AgentRun>): seq<AgentScore>
    requires |keys| == |runs|
  {
    if runs == [] || runs[0].Raised? then []
    else [Entry(keys[0], runs[0].report)] + Completed(keys[1..], runs[1..])
  }

  /** The message of the first call that raised, if any did. */
  function FirstRaised(runs: seq<AgentRun>): Option<string>
  {
    if runs == [] then None
    else if runs[0].Raised? then Some(runs[0].message)
    else FirstRaised(runs[1..])
  }

  lemma RunListTails(runs: AgentRuns)
    ensures RunList(runs)[1..] == [runs.quant, runs.qual, runs.news]
    ensures RunList(runs)[1..][1..] == [runs.qual, runs.news]
    ensures RunList(runs)[1..][1..][1..] == [runs.news]
    ensures RunList(runs)[1..][1..][1..][1..] == []
    ensures RunnerKeys[1..] == ["QUANT", "QUAL", "NEWS"] && RunnerKeys[1..][1..] == ["QUAL", "NEWS"]
    ensures RunnerKeys[1..][1..][1..] == ["NEWS"] && RunnerKeys[1..][1..][1..][1..] == []
  {
  }

  /** One call's contribution: nothing once it raised, else its entry and then the rest. */
  function Step(run: AgentRun, key: string, rest: seq<AgentScore>): seq<AgentScore>
  {
    if run.Raised? then [] else [Entry(key, run.report)] + rest
  }

  /** `FirstRaised` and `Completed` on the four calls, spelled out call by call. */
  lemma UnrollRuns(runs: AgentRuns)
    ensures FirstRaised(RunList(runs))
         == if runs.tech.Raised? then Some(runs.tech.message)
            else if runs.quant.Raised? then Some(runs.quant.message)
            else if runs.qual.Raised? then Some(runs.qual.message)
            else if runs.news.Raised? then Some(runs.news.message)
            else None
    ensures Completed(RunnerKeys, RunList(runs))
         == Step(runs.tech, "TECH",
              Step(runs.quant, "QUANT",
                Step(runs.qual, "QUAL",
                  Step(runs.news, "NEWS", []))))
  {
    RunListTails(runs);
    var s := RunList(runs);
    var k := RunnerKeys;
    assert FirstRaised(s[1..][1..][1..]) == if runs.news.Raised? then Some(runs.news.message) else None;
    assert Completed(k[1..][1..][1..], s[1..][1..][1..]) == Step(runs.news, "NEWS", []);
    assert FirstRaised(s[1..][1..]) == if runs.qual.Raised? then Some(runs.qual.message) else FirstRaised(s[1..][1..][1..]);
    assert Completed(k[1..][1..], s[1..][1..]) == Step(runs.qual, "QUAL", Completed(k[1..][1..][1..], s[1..][1..][1..]));
    assert FirstRaised(s[1..]) == if runs.quant.Raised? then Some(runs.quant.message) else FirstRaised(s[1..][1..]);
    assert Completed(k[1..], s[1..]) == Step(runs.quant, "QUANT", Completed(k[1..][1..], s[1..][1..]));
  }

  /**
   * The four calls inside one `try` block, each entry recorded as soon as its
   * call returns; the first call that raises skips the rest.
   */
  method RunAgents(runs: AgentRuns) returns (agents: seq<AgentScore>, failure: Option<string>)
    ensures agents == Completed(RunnerKeys, RunList(runs))
    ensures failure == FirstRaised(RunList(runs))
  {
    UnrollRuns(runs);
    agents := [];
    failure := None;
    if runs.tech.Raised? {
      failure := Some(runs.tech.message);
      return;
    }
    agents := agents + [Entry("TECH", runs.tech.report)];
    if runs.quant.Raised? {
      failure := Some(runs.quant.message);
      return;
    }
    agents := agents + [Entry("QUANT", runs.quant.report)];
    if runs.qual.Raised? {
      failure := Some(runs.qual.message);
      return;
    }
    agents := agents + [Entry("QUAL", runs.qual.report)];
    if runs.news.Raised? {
      failure := Some(runs.news.message);
      return;
    }
    agents := agents + [Entry("NEWS", runs.news.report)];
  }

  /**
   * The recorded entries carry the keys in call order, one per call that
   * returned: all of them when nothing raised, and otherwise exactly those
   * before the call whose message is reported.
   */
  lemma {:induction false} CompletedShape(keys: seq<string>, runs: seq<AgentRun>)
    requires |keys| == |runs|
    ensures |Completed(keys, runs)| <= |runs|
    ensures forall i :: 0 <= i < |Completed(keys, runs)| ==>
              runs[i].Ran? && Completed(keys, runs)[i] == Entry(keys[i], runs[i].report)
    ensures FirstRaised(runs).None? <==> |Completed(keys, runs)| == |runs|
    ensures FirstRaised(runs).Some? ==>
              runs[|Completed(keys, runs)|].Raised? &&
              FirstRaised(runs).value == runs[|Completed(keys, runs)|].message
  {
    if runs != [] && runs[0].Ran? {
      CompletedShape(keys[1..], runs[1..]);
    }
  }

  /** The batch runners' success case: all four calls returned. */
  lemma AllRanCompleted(runs: AgentRuns)
    requires runs.tech.Ran? && runs.quant.Ran? && runs.qual.Ran? && runs.news.Ran?
    ensures FirstRaised(RunList(runs)) == None
    ensures Completed(RunnerKeys, RunList(runs))
         == [Entry("TECH", runs.tech.report), Entry("QUANT", runs.quant.report),
             Entry("QUAL", runs.qual.report), Entry("NEWS", runs.news.report)]
  {
    UnrollRuns(runs);
  }

  function Scores(agents: seq<AgentScore>): (s: seq<int>)
    ensures |s| == |agents| && forall i :: 0 <= i < |agents| ==> s[i] == agents[i].score
  {
    seq(|agents|, i requires 0 <= i < |agents| => agents[i].score)
  }

  function Recs(agents: seq<AgentScore>): (s: seq<Rec>)
    ensures |s| == |agents| && forall i :: 0 <= i < |agents| ==> s[i] == agents[i].rec
  {
    seq(|agents|, i requires 0 <= i < |agents| => agents[i].rec)
  }

  // ---------------------------------------------------------------------
  // Average and votes
  // ---------------------------------------------------------------------

  /** Python `sum(...)` over integers. */
  function SumInt(s: seq<int>): int
  {
    if s == [] then 0 else s[0] + SumInt(s[1..])
  }

  /** `sum(scores) / len(scores) if scores else 0`, exact (no rounding). */
  function Mean(s: seq<int>): real
  {
    if s == [] then 0.0 else (SumInt(s) as real) / (|s| as real)
  }

  lemma {:induction false} SumIntBounds(s: seq<int>, lo: int, hi: int)
    requires forall i :: 0 <= i < |s| ==> lo <= s[i] <= hi
    ensures lo * |s| <= SumInt(s) <= hi * |s|
  {
    if s != [] {
      SumIntBounds(s[1..], lo, hi);
    }
  }

  /** The mean of scores in [lo, hi] lies in [lo, hi]. */
  lemma MeanBounds(s: seq<int>, lo: int, hi: int)
    requires s != []
    requires forall i :: 0 <= i < |s| ==> lo <= s[i] <= hi
    ensures lo as real <= Mean(s) <= hi as real
  {
    SumIntBounds(s, lo, hi);
    IntProductAsReal(lo, |s|);
    IntProductAsReal(hi, |s|);
    DivideBetween(SumInt(s) as real, |s| as real, lo as real, hi as real);
  }

  lemma IntProductAsReal(a: int, b: int)
    ensures (a * b) as real == a as real * b as real
  {
  }

  lemma DivideBetween(x: real, n: real, lo: real, hi: real)
    requires n > 0.0 && lo * n <= x <= hi * n
    ensures lo <= x / n <= hi
  {
    assert x / n * n == x;
  }

  /** Python `recs.count(r)`. */
  function Votes(recs: seq<Rec>, r: Rec): nat
  {
    if recs == [] then 0 else (if recs[0] == r then 1 else 0) + Votes(recs[1..], r)
  }

  /** Every recommendation is one of BUY, HOLD and SELL, so the three counts add up. */
  lemma {:induction false} VotesPartition(recs: seq<Rec>)
    ensures Votes(recs, Buy) + Votes(recs, Hold) + Votes(recs, Sell) == |recs|
  {
    if recs != [] {
      VotesPartition(recs[1..]);
    }
  }

  // ---------------------------------------------------------------------
  // Consensus
  // ---------------------------------------------------------------------

  datatype Consensus = StrongBuy | BuyConsensus | HoldConsensus | SellConsensus

  function ConsensusText(c: Consensus): string
  {
    match c
    case StrongBuy => "STRONG BUY"
    case BuyConsensus => "BUY"
    case HoldConsensus => "HOLD"
    case SellConsensus => "SELL"
  }

  /** The integration test's rule: three buys, two buys, two sells, in that priority. */
  function ConsensusWithSell(buy: int, sell: int): (c: Consensus)
    ensures c == StrongBuy <==> buy >= 3
    ensures c == BuyConsensus <==> buy == 2
    ensures c == SellConsensus <==> buy < 2 && sell >= 2
    ensures c == HoldConsensus <==> buy < 2 && sell < 2
  {
    if buy >= 3 then StrongBuy
    else if buy >= 2 then BuyConsensus
    else if sell >= 2 then SellConsensus
    else HoldConsensus
  }

  /** The batch runners' rule: it has no SELL branch. */
  function ConsensusBuyOnly(buy: int): (c: Consensus)
    ensures c != SellConsensus
    ensures c == StrongBuy <==> buy >= 3
    ensures c == BuyConsensus <==> buy == 2
    ensures c == HoldConsensus <==> buy < 2
  {
    if buy >= 3 then StrongBuy else if buy >= 2 then BuyConsensus else HoldConsensus
  }

  /** The two rules agree except that where one says SELL the other says HOLD. */
  lemma ConsensusRulesAgree(buy: int, sell: int)
    ensures ConsensusBuyOnly(buy)
         == (if ConsensusWithSell(buy, sell) == SellConsensus then HoldConsensus else ConsensusWithSell(buy, sell))
  {
  }

  /** Of four votes, at most one side can reach three; two buys outrank two sells. */
  lemma FourVotesConsensus(recs: seq<Rec>)
    requires |recs| == 4
    ensures ConsensusWithSell(Votes(recs, Buy), Votes(recs, Sell)) == SellConsensus
         ==> Votes(recs, Buy) + Votes(recs, Hold) <= 2
  {
    VotesPartition(recs);
  }

  // ---------------------------------------------------------------------
  // One stock, as the FinanceDataReader and full-market runners analyse it
  // ---------------------------------------------------------------------

  /** A stock dict: `market` and `sector` may be absent. */
  datatype Stock = Stock(symbol: string, name: string, market: Option<string>, sector: Option<string>)

  function OptionOr(o: Option<string>, default: string): string
  {
    if o.Some? then o.value else default
  }

  /** `status` 'success' with `avg_score` and `consensus`, or 'error' with the message. */
  datatype Verdict = Scored(avgScore: real, consensus: Consensus) | Errored(error: string)

  datatype StockResult = StockResult(symbol: string, name: string, market: string, sector: string,
                                     agents: seq<AgentScore>, verdict: Verdict)

  /**
   * `analyze_stock`: the entries of the calls that returned, then, if none
   * raised, the mean of the four scores and the buy-only consensus.
   * `marketDefault` is what a stock without a market tag is reported under.
   */
  function Analyzed(stock: Stock, runs: AgentRuns, marketDefault: string): StockResult
  {
    var agents := Completed(RunnerKeys, RunList(runs));
    var failure := FirstRaised(RunList(runs));
    StockResult(stock.symbol, stock.name, OptionOr(stock.market, marketDefault), OptionOr(stock.sector, "Unknown"),
                agents,
                if failure.Some? then Errored(failure.value)
                else Scored(Mean(Scores(agents)), ConsensusBuyOnly(Votes(Recs(agents), Buy))))
  }

  method AnalyzeStock(stock: Stock, runs: AgentRuns, marketDefault: string) returns (result: StockResult)
    ensures result == Analyzed(stock, runs, marketDefault)
  {
    var market := OptionOr(stock.market, marketDefault);
    var sector := OptionOr(stock.sector, "Unknown");
    var agents, failure := RunAgents(runs);
    if failure.Some? {
      result := StockResult(stock.symbol, stock.name, market, sector, agents, Errored(failure.value));
      return;
    }
    var scores := Scores(agents);
    var buy := Votes(Recs(agents), Buy);
    result := StockResult(stock.symbol, stock.name, market, sector, agents, Scored(Mean(scores), ConsensusBuyOnly(buy)));
  }

  /**
   * A stock is a success exactly when all four calls returned; then its
   * average is the mean of the four totals (0 for a failed fetch) and its
   * consensus counts their BUY votes and is never SELL.
   */
  lemma AnalyzedSuccessExactly(stock: Stock, runs: AgentRuns, marketDefault: string)
    ensures Analyzed(stock, runs, marketDefault).verdict.Scored?
        <==> runs.tech.Ran? && runs.quant.Ran? && runs.qual.Ran? && runs.news.Ran?
    ensures Analyzed(stock, runs, marketDefault).verdict.Scored? ==>
              var v := Analyzed(stock, runs, marketDefault).verdict;
              var recs := [RecOf(runs.tech.report), RecOf(runs.quant.report), RecOf(runs.qual.report), RecOf(runs.news.report)];
              v.avgScore == Mean([ScoreOf(runs.tech.report), ScoreOf(runs.quant.report),
                                  ScoreOf(runs.qual.report), ScoreOf(runs.news.report)])
              && v.consensus == ConsensusBuyOnly(Votes(recs, Buy)) && v.consensus != SellConsensus
  {
    UnrollRuns(runs);
    if runs.tech.Ran? && runs.quant.Ran? && runs.qual.Ran? && runs.news.Ran? {
      var agents := Completed(RunnerKeys, RunList(runs));
      assert Scores(agents) == [ScoreOf(runs.tech.report), ScoreOf(runs.quant.report),
                                ScoreOf(runs.qual.report), ScoreOf(runs.news.report)];
      assert Recs(agents) == [RecOf(runs.tech.report), RecOf(runs.quant.report), RecOf(runs.qual.report), RecOf(runs.news.report)];
    }
  }

  /** An error result keeps the entries of the calls before the one that raised, and its message. */
  lemma AnalyzedErrorKeepsEarlierEntries(stock: Stock, runs: AgentRuns, marketDefault: string)
    requires Analyzed(stock, runs, marketDefault).verdict.Errored?
    ensures var r := Analyzed(stock, runs, marketDefault);
            var n := |r.agents|;
            n < 4 && RunList(runs)[n].Raised? && r.verdict.error == RunList(runs)[n].message
            && forall i :: 0 <= i < n ==> RunList(runs)[i].Ran? && r.agents[i] == Entry(RunnerKeys[i], RunList(runs)[i].report)
  {
    CompletedShape(RunnerKeys, RunList(runs));
  }

  // ---------------------------------------------------------------------
  // Batch statistics
  // ---------------------------------------------------------------------

  /** `[r for r in results if r.get('status') == 'success']`. */
  function Successes(results: seq<StockResult>): (s: seq<StockResult>)
    ensures |s| <= |results|
    ensures forall r :: r in s <==> r in results && r.verdict.Scored?
  {
    if results == [] then []
    else (if results[0].verdict.Scored? then [results[0]] else []) + Successes(results[1..])
  }

  /** `len([r for r in results if r.get('market') == market])`. */
  function CountMarket(results: seq<StockResult>, market: string): (n: nat)
    ensures n <= |results|
  {
    if results == [] then 0
    else (if results[0].market == market then 1 else 0) + CountMarket(results[1..], market)
  }

  /** Results are counted by market at most once each, so the two counts fit in the total. */
  lemma {:induction false} MarketCountsFit(results: seq<StockResult>, a: string, b: string)
    requires a != b
    ensures CountMarket(results, a) + CountMarket(results, b) <= |results|
  {
    if results != [] {
      MarketCountsFit(results[1..], a, b);
    }
  }

  /** `x.get('avg_score', 0)`. */
  function AvgScore(r: StockResult): real
  {
    if r.verdict.Scored? then r.verdict.avgScore else 0.0
  }

  function ByAverage(r: StockResult): Rank
  {
    Rank(0, AvgScore(r))
  }

  /** `sorted(successes, key=avg_score, reverse=True)[:n]`. */
  function Top(results: seq<StockResult>, n: nat): seq<StockResult>
  {
    Prefix(SortBy(Successes(results), ByAverage), n)
  }

  /** The top list holds at most n successful results, highest average first. */
  lemma TopShape(results: seq<StockResult>, n: nat)
    ensures |Top(results, n)| == Min(n, |Successes(results)|)
    ensures forall r :: r in Top(results, n) ==> r in results && r.verdict.Scored?
    ensures forall i, j :: 0 <= i < j < |Top(results, n)| ==> AvgScore(Top(results, n)[i]) >= AvgScore(Top(results, n)[j])
  {
    var sorted := SortBy(Successes(results), ByAverage);
    SortByPermutes(Successes(results), ByAverage);
    SortBySorted(Successes(results), ByAverage);
    forall r | r in Top(results, n) ensures r in results && r.verdict.Scored? {
      SortByMembers(Successes(results), ByAverage, r);
    }
    forall i, j | 0 <= i < j < |Top(results, n)| ensures AvgScore(Top(results, n)[i]) >= AvgScore(Top(results, n)[j]) {
      assert Top(results, n)[i] == sorted[i] && Top(results, n)[j] == sorted[j];
      assert !Before(ByAverage(sorted[j]), ByAverage(sorted[i]));
    }
  }
}
