// `run_all_level1_agents`: runs the four Level-1 agents on one stock, keeps
// one summary entry per agent, averages their totals and turns the votes into
// a consensus that, unlike the batch runners', has a SELL branch.
module Level1All {
  import opened Common
  import opened Level1Common

  /** The agent-specific field each summary entry carries. */
  datatype Detail =
    | KeySignals(signals: seq<string>)
    | KeyMetrics(metrics: map<string, real>)
    | MoatRating(moat: string)
    | SentimentTrend(trend: string)

  datatype AgentSummary = AgentSummary(id: string, name: string, score: int, rec: Rec, detail: Detail)

  datatype Summary = Summary(averageScore: real, consensus: Consensus,
                             buyVotes: nat, holdVotes: nat, sellVotes: nat, totalAgents: int)

  datatype Level1Result = Level1Result(symbol: string, name: string, agents: seq<AgentSummary>, summary: Summary)

  const AgentIds: seq<string> := ["TECH_001", "QUANT_001", "QUAL_001", "NEWS_001"]

  /** `r.get('key_signals', [])`: the technical result's key signals. */
  function SignalsOf(r: AgentReport): seq<string>
  {
    if r.Report? then r.signals else []
  }

  /** `r.get('key_metrics', {})`. */
  function MetricsOf(r: AgentReport): map<string, real>
  {
    if r.Report? then r.metrics else map[]
  }

  /** `r.get(key, default)` on one of the result's text fields. */
  function LabelOr(r: AgentReport, key: string, default: string): string
  {
    if r.Report? && key in r.labels then r.labels[key] else default
  }

  /**
   * The four agents' results, in call order, become four entries keyed
   * TECH_001, QUANT_001, QUAL_001 and NEWS_001 with the defaults 0 and HOLD;
   * the summary holds the mean score, the vote counts (which add up to four),
   * the consensus of those votes and `total_agents` = 4.
   */
  method RunAllLevel1Agents(symbol: string, name: string,
                            tech: AgentReport, quant: AgentReport, qual: AgentReport, news: AgentReport)
    returns (r: Level1Result)
    ensures r.symbol == symbol && r.name == name
    ensures |r.agents| == 4 && forall i :: 0 <= i < 4 ==> r.agents[i].id == AgentIds[i]
    ensures r.agents[0].score == ScoreOf(tech) && r.agents[0].rec == RecOf(tech)
    ensures r.agents[1].score == ScoreOf(quant) && r.agents[1].rec == RecOf(quant)
    ensures r.agents[2].score == ScoreOf(qual) && r.agents[2].rec == RecOf(qual)
    ensures r.agents[3].score == ScoreOf(news) && r.agents[3].rec == RecOf(news)
    ensures r.agents[0].detail == KeySignals(Prefix(SignalsOf(tech), 3))
    ensures r.agents[1].detail == KeyMetrics(MetricsOf(quant))
    ensures r.agents[2].detail == MoatRating(LabelOr(qual, "moat_rating", "None"))
    ensures r.agents[3].detail == SentimentTrend(LabelOr(news, "sentiment_trend", "Unknown"))
    ensures r.summary.averageScore == Mean([ScoreOf(tech), ScoreOf(quant), ScoreOf(qual), ScoreOf(news)])
    ensures r.summary.buyVotes + r.summary.holdVotes + r.summary.sellVotes == 4
    ensures r.summary.buyVotes == Votes([RecOf(tech), RecOf(quant), RecOf(qual), RecOf(news)], Buy)
    ensures r.summary.sellVotes == Votes([RecOf(tech), RecOf(quant), RecOf(qual), RecOf(news)], Sell)
    ensures r.summary.consensus == ConsensusWithSell(r.summary.buyVotes, r.summary.sellVotes)
    ensures r.summary.totalAgents == 4
  {
    var techSummary := AgentSummary("TECH_001", "Technical Analyst", ScoreOf(tech), RecOf(tech),
                                    KeySignals(Prefix(SignalsOf(tech), 3)));
    var quantSummary := AgentSummary("QUANT_001", "Quant Analyst", ScoreOf(quant), RecOf(quant),
                                     KeyMetrics(MetricsOf(quant)));
    var qualSummary := AgentSummary("QUAL_001", "Qualitative Analyst", ScoreOf(qual), RecOf(qual),
                                    MoatRating(LabelOr(qual, "moat_rating", "None")));
    var newsSummary := AgentSummary("NEWS_001", "News Sentiment Analyst", ScoreOf(news), RecOf(news),
                                    SentimentTrend(LabelOr(news, "sentiment_trend", "Unknown")));
    var agents: seq<AgentSummary> := [];
    agents := agents + [techSummary];
    agents := agents + [quantSummary];
    agents := agents + [qualSummary];
    agents := agents + [newsSummary];
    assert agents == [techSummary, quantSummary, qualSummary, newsSummary];
    var scores := seq(|agents|, i requires 0 <= i < |agents| => agents[i].score);
    assert scores == [ScoreOf(tech), ScoreOf(quant), ScoreOf(qual), ScoreOf(news)];
    var average := Mean(scores);
    var recommendations := seq(|agents|, i requires 0 <= i < |agents| => agents[i].rec);
    assert recommendations == [RecOf(tech), RecOf(quant), RecOf(qual), RecOf(news)];
    var buy := Votes(recommendations, Buy);
    var hold := Votes(recommendations, Hold);
    var sell := Votes(recommendations, Sell);
    VotesPartition(recommendations);
    var consensus := ConsensusWithSell(buy, sell);
    r := Level1Result(symbol, name, agents, Summary(average, consensus, buy, hold, sell, 4));
  }

  /** Every Level-1 total lies in [0, 100], so the average does too. */
  lemma AverageBounds(scores: seq<int>)
    requires |scores| == 4 && forall i :: 0 <= i < 4 ==> 0 <= scores[i] <= 100
    ensures 0.0 <= Mean(scores) <= 100.0
  {
    MeanBounds(scores, 0, 100);
  }

  /** An agent whose fetch failed counts as a 0-point HOLD vote. */
  lemma FailedAgentDefaults()
    ensures ScoreOf(FetchFailed) == 0 && RecOf(FetchFailed) == Hold
    ensures LabelOr(FetchFailed, "moat_rating", "None") == "None"
    ensures LabelOr(FetchFailed, "sentiment_trend", "Unknown") == "Unknown"
  {
  }
}
