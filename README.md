# KStock analyzer scoring core, modelled in Dafny

The KStock analyzer scores Korean stocks (KOSPI and KOSDAQ) in three levels.
At Level 1, four analyst agents each score one stock out of 100:

- technical: price trend, momentum, Bollinger bands and volume;
- quantitative: profitability, growth, stability and valuation;
- qualitative: business model, management, industry outlook and risk factors;
- news sentiment: news tone, social interest, event risk and price momentum.

Each agent sums four dimension scores of 0 to 25. It turns the total into BUY
(70 and up), HOLD (50 to 69) or SELL. Level 2 (sector and macro managers) and
Level 3 (the portfolio manager) are prompts prepared for language-model agents.
The orchestrator and the spawner build those prompts and records level by
level. The agent group holds the roster of seven agents.

Around this sit:

- the Level-1 batch runners: a fixed list, a FinanceDataReader listing, and
  an extended full-market list;
- the integration run of all four agents with its consensus vote;
- three breakout scanners (Livermore 52-week highs, O'Neil volume surges,
  Minervini VCP), plus a KOSDAQ scanner that runs all three;
- the investigation report, which merges the scanners' results and sorts them
  by priority;
- the KOSPI market-data update and its reader: trend, RSI alert, signal
  ladder and the market-data index file.

One Dafny module models each source file:

- `TechnicalAgent`, `QuantAgent`, `QualitativeAgent`, `NewsAgent`;
- `Level1All`, `Level1Batch`, `Level1Fdr`, `Level1FullMarket`;
- `Livermore`, `Oneil`, `Minervini`, `Kosdaq`;
- `InvestigationReport`, `AgentGroup`, `Orchestrator`, `Spawner`;
- `MarketSignals` (analysis/technical.py), `UpdateData`, `KStockData`.

Shared modules:

- `Common`: recommendation ladder, the score-part algebra, the Level-1
  report record, Python slicing and `lower()`;
- `Sorting`: a stable sort by key, standing in for Python's `sort(key=...)`;
- `Level1Common`: one stock's four agent calls in a `try` block, consensus
  rules, batch statistics;
- `ScannerCommon`: the helpers the scanners share;
- `MarketData`: NaN-aware floats, the trend rule, Python exceptions, JSON
  values.

The agents' classes become Dafny classes. Their fields are the fetched data
and the per-dimension results, which their `analyze_*` methods fill in. Each
method is proved against a function that specifies its dimension, and lemmas
state the score ladders ("bands") of each dimension.

## Model

| member | source | states |
|---|---|---|
| Common.Recommend | agents/technical_agent.py:405-411 | BUY exactly from a total of 70, HOLD exactly from 50 to 69, SELL exactly below 50 |
| Common.RecommendMonotone | agents/quant_agent.py:402-408 | a higher total never yields a more bearish recommendation |
| Common.Level1Report | agents/technical_agent.py:398-428 | the total is the sum of the four dimension scores and lies in [0, 100]; the breakdown lists them; the recommendation follows the total; key signals and risk flags are the first five and three tags of the four dimensions in order |
| Common.Labels | agents/technical_agent.py:401-402 | one rendered label per tag, in order |
| Common.Prefix | agents/technical_agent.py:427-428 | `s[:n]`: a prefix of the list of length min(n, length), or the list less its last -n elements for a negative n |
| Common.Tail | kstock_data.py:41 | `tail(n)`: a suffix of the list of length min(n, length), or the list less its first -n elements for a negative n |
| Common.LowerChar | kstock_data.py:92 | a lowered character is never an upper-case ASCII letter, and every other character is unchanged |
| Common.Lower | agents/news_agent.py:69-70 | the lowered text has the same length and lowers each character in place |
| Common.UpperKeywordNeverMatches | agents/news_agent.py:190-193 | a keyword with an upper-case letter never occurs in a text without one, in particular in a lowered text |
| Sorting.InsertPermutes | investigation_report.py:108-111 | inserting an element into a list adds exactly that element |
| Sorting.InsertSorted | investigation_report.py:108-111 | inserting into a list sorted by the key keeps it sorted |
| Sorting.InsertKeepsKeyClasses | investigation_report.py:108-111 | inserting keeps the relative order of the elements with each key |
| Sorting.SortByPermutes | investigation_report.py:108-111 | Python's `list.sort(key=...)` yields a permutation of its input |
| Sorting.SortBySorted | investigation_report.py:108-111 | the sorted list is ordered by the key |
| Sorting.SortByStable | investigation_report.py:108-111 | the sort is stable: elements with equal keys keep their input order |
| Sorting.SortByMembers | investigation_report.py:108-111 | the sorted list holds exactly the elements of the input |
| InvestigationReport.ChangeOf | investigation_report.py:131 | the change is `change_pct` when present, else `price_change` when present, else 0 |
| InvestigationReport.AddedExactly | investigation_report.py:115-135 | an already listed (symbol, type) pair leaves the list unchanged; otherwise exactly the new entry is appended; the pair is listed afterwards, earlier entries stay in place and no pair appears twice |
| InvestigationReport.StrategyName | investigation_report.py:74-78 | livermore, oneil and minervini map to their Korean names; any other key is kept as it is |
| InvestigationReport.CombinedSignals | investigation_report.py:89-95 | each strategy name is listed exactly when its count is positive, in the order livermore, oneil, minervini |
| InvestigationReport.Report.constructor | investigation_report.py:19-28 | a new report starts with no investigations |
| InvestigationReport.Report.AddInvestigation | investigation_report.py:115-135 | the list afterwards is the old list with the entry added unless its pair was already listed |
| InvestigationReport.Report.AddStocks | investigation_report.py:46-47 | one file's loop adds every stock under the same type and priority, in order |
| InvestigationReport.Report.AddKosdaqGroups | investigation_report.py:73-80 | each strategy group's stocks are added under `KOSDAQ` and the strategy's name |
| InvestigationReport.Report.AddDoubles | investigation_report.py:88-103 | the double-signal loop adds each stock with two or more signals under its combined label at high priority |
| InvestigationReport.Report.Load | investigation_report.py:42-111 | the investigations after reading the five result files in their fixed order and sorting |
| InvestigationReport.BadgeOf | investigation_report.py:397-406 | the badge of the first of 복합, 리버모어, 오닐, 미너비니 the type contains, with each case exactly characterised; the KOSDAQ badge otherwise |
| InvestigationReport.ReportRows | investigation_report.py:394-420 | one row per investigation for the first 50 only, in list order |
| InvestigationReport.CountPriority | investigation_report.py:143-144 | a priority count never exceeds the number of investigations |
| InvestigationReport.PriorityCounts | investigation_report.py:143-144 | the HIGH and NORMAL counts add up to the total |
| InvestigationReport.AddAllShape | investigation_report.py:46-67 | a file's loop adds at most one entry per stock, keeps the earlier list as a prefix and keeps the pairs unique |
| InvestigationReport.AddKosdaqShape | investigation_report.py:70-83 | the same for the KOSDAQ groups, every new entry a normal `KOSDAQ <name>` entry |
| InvestigationReport.AddCombinedShape | investigation_report.py:85-105 | the double-signal loop adds only high-priority entries for stocks with at least two positive counts, labelled by those strategies |
| InvestigationReport.UniqueOnce | investigation_report.py:121-124 | a list without a repeated (symbol, type) pair holds every entry at most once |
| InvestigationReport.UniquePermuted | investigation_report.py:108-111 | reordering a list without repeated pairs leaves none repeated |
| InvestigationReport.LoadedShape | investigation_report.py:42-111 | the loaded investigations repeat no pair, are a permutation of the collected entries, put high priority first and, within a priority, order scores descending with ties in collection order |
| InvestigationReport.HighBeforeNormal | investigation_report.py:108-111 | every high-priority entry precedes every normal one |
| InvestigationReport.LivermoreOneilLabel | investigation_report.py:89-98 | a stock with positive livermore and oneil counts and none for minervini is labelled `복합 신호: 리버모어 + 오닐` |
| InvestigationReport.CombinedEntryAdded | investigation_report.py:97-103 | a stock with two or more positive counts ends up listed under its combined label; when it was new, exactly its high-priority entry is appended |
| InvestigationReport.SingleSignalNotCombined | investigation_report.py:97 | a stock with at most one positive count adds nothing |
| InvestigationReport.AbsentFirstChar | investigation_report.py:397 | a keyword whose first character the type lacks is not in the type |
| InvestigationReport.Occurs | investigation_report.py:397 | a keyword placed inside a text is in that text |
| InvestigationReport.LivermoreBadges | investigation_report.py:399-400 | both livermore types, the KOSDAQ one included, get the livermore badge |
| InvestigationReport.OneilBadges | investigation_report.py:401-402 | both oneil types get the oneil badge |
| InvestigationReport.MinerviniBadges | investigation_report.py:403-404 | both minervini types get the minervini badge |
| InvestigationReport.CombinedBadge | investigation_report.py:397-398 | every combined-signal type gets the composite badge |
| QualitativeAgent.NumberOr | agents/qualitative_agent.py:38-40 | a missing numeric key reads as its default; a present one reads as its stored float, NaN included |
| QualitativeAgent.Hundredfold | agents/qualitative_agent.py:88 | multiplying by 100 keeps NaN as NaN and scales a finite value |
| QualitativeAgent.TextOr | agents/qualitative_agent.py:38-40 | the stored text for a present key, the default for a missing one |
| QualitativeAgent.MarketCapRung | agents/qualitative_agent.py:52-67 | market capitalisation scores 1 to 8 and is a risk exactly when it is not at least 1조 (below it or NaN) |
| QualitativeAgent.GrossMarginRung | agents/qualitative_agent.py:88-101 | gross margin scores 1 to 7 and is a risk exactly when it is not at least 15% (below it or NaN) |
| QualitativeAgent.ResearchRung | agents/qualitative_agent.py:103-106 | 2 points exactly for a positive revenue per share, never a risk |
| QualitativeAgent.BusinessModelVerdict | agents/qualitative_agent.py:42-108 | the market-cap, diversification, gross-margin and R&D ladders in order, clamped at 25; the result lies in [5, 23] |
| QualitativeAgent.BusinessModelOf | agents/qualitative_agent.py:42-108 | `analyze_business_model` raises TypeError exactly when the market cap, gross margin or revenue per share holds None; otherwise it scores 5 to 23 |
| QualitativeAgent.DividendRung | agents/qualitative_agent.py:120-137 | dividend yield scores 0 to 10 and is a risk exactly when it is not positive (zero, negative or NaN) |
| QualitativeAgent.PayoutRung | agents/qualitative_agent.py:139-146 | payout scores 0 to 5, never a risk, and 0 exactly when it is not positive |
| QualitativeAgent.InsiderRung | agents/qualitative_agent.py:149-154 | 3 points exactly for insider holdings in [10, 40] |
| QualitativeAgent.InstitutionRung | agents/qualitative_agent.py:150-161 | institutional holdings score 0 to 3 and are a risk exactly below 10% (a NaN holding is not) |
| QualitativeAgent.ManagementVerdict | agents/qualitative_agent.py:110-171 | the dividend, payout, insider, institution and employee ladders in order, clamped at 25 |
| QualitativeAgent.ManagementOf | agents/qualitative_agent.py:110-171 | `analyze_management` raises TypeError exactly when the yield, payout, insider, institution or employee entry holds None (a None `dividendRate` is read but never used); otherwise it scores 0 to 25 |
| QualitativeAgent.SectorGrowthRung | agents/qualitative_agent.py:182-201 | the sector scores 4 to 10 and never adds a risk |
| QualitativeAgent.TechnologyRung | agents/qualitative_agent.py:203-217 | the technology level scores 3 to 8 and never adds a risk |
| QualitativeAgent.BetaPositionRung | agents/qualitative_agent.py:219-231 | beta scores 2 to 7 in the outlook and never adds a risk |
| QualitativeAgent.IndustryOutlookVerdict | agents/qualitative_agent.py:173-233 | the sector, technology and beta ladders in order, clamped at 25; the result lies in [9, 25] and records no risk |
| QualitativeAgent.IndustryOutlookOf | agents/qualitative_agent.py:173-233 | `analyze_industry_outlook` raises TypeError exactly when beta holds None; otherwise it scores 9 to 25 with no risk |
| QualitativeAgent.BetaRiskRung | agents/qualitative_agent.py:245-257 | beta deducts 0 to 8 points, nothing exactly when it is not at least 1.0, and is a risk exactly from 1.2 |
| QualitativeAgent.DebtRiskRung | agents/qualitative_agent.py:259-268 | D/E deducts 0 to 7 points, and deducts and is a risk exactly from 100 |
| QualitativeAgent.RevenueRiskRung | agents/qualitative_agent.py:270-279 | shrinking revenue deducts 0 to 6 points, and deducts and is a risk exactly when growth is negative |
| QualitativeAgent.LiquidityRiskRung | agents/qualitative_agent.py:281-289 | the current ratio deducts 0 to 4 points, and deducts and is a risk exactly below 1.0 |
| QualitativeAgent.RiskFactorsVerdict | agents/qualitative_agent.py:235-291 | 25 less the four deductions, floored at 0; the result lies in [0, 25] |
| QualitativeAgent.RiskFactorsOf | agents/qualitative_agent.py:235-291 | `analyze_risk_factors` raises TypeError exactly when beta, D/E, revenue growth or current ratio holds None; otherwise it scores 0 to 25 |
| QualitativeAgent.MoatRating | agents/qualitative_agent.py:293-304 | Wide exactly for gross margin at least 0.5, operating margin at least 0.2 and a market cap above 50조; Narrow exactly for margins of at least 0.3 and 0.1 otherwise; None in every other case |
| QualitativeAgent.MoatOf | agents/qualitative_agent.py:293-304 | the moat test raises only TypeError, and with no None among the two margins and the market cap it is the moat rating of their values |
| QualitativeAgent.QualLabels | agents/qualitative_agent.py:369-380 | sector and industry read 'Unknown' when missing, and the moat field is the moat rating |
| QualitativeAgent.Assemble | agents/qualitative_agent.py:340-382 | the breakdown lists the four sub-scores in order, the total lies in [0, 100] with BUY from 70, HOLD from 50, SELL below, and the moat field is the moat rating |
| QualitativeAgent.QualReport | agents/qualitative_agent.py:325-382 | once `info` is fetched, `analyze` raises TypeError exactly when a dimension's entries or the moat test meet a None; otherwise every dimension finished, the breakdown is their four scores in order, and total, recommendation and moat rating are as above |
| QualitativeAgent.QualitativeAnalysisAgent.constructor | agents/qualitative_agent.py:19-26 | a new agent holds an empty `info` and no scores |
| QualitativeAgent.QualitativeAnalysisAgent.AnalyzeBusinessModel | agents/qualitative_agent.py:42-108 | the method, raising at the first None it reads, agrees with `BusinessModelOf` |
| QualitativeAgent.QualitativeAnalysisAgent.AnalyzeManagement | agents/qualitative_agent.py:110-171 | the method, raising at the first None it reads, agrees with `ManagementOf` |
| QualitativeAgent.QualitativeAnalysisAgent.AnalyzeIndustryOutlook | agents/qualitative_agent.py:173-233 | the method agrees with `IndustryOutlookOf` |
| QualitativeAgent.QualitativeAnalysisAgent.AnalyzeRiskFactors | agents/qualitative_agent.py:235-291 | the method, raising at the first None it reads, agrees with `RiskFactorsOf` |
| QualitativeAgent.QualitativeAnalysisAgent.Analyze | agents/qualitative_agent.py:306-397 | a failed fetch yields the error record and changes nothing; otherwise `info` is the fetched data, the result is the report of `info`, and `scores` holds exactly the dimensions that finished before the first one that raised |
| QualitativeAgent.BusinessModelNeverClamped | agents/qualitative_agent.py:108 | the business-model clamp never binds: the score is the plain sum of the ladders |
| QualitativeAgent.ManagementNeverClamped | agents/qualitative_agent.py:171 | the management clamp never binds: the score is the plain sum of the ladders |
| QualitativeAgent.RiskFactorsNeverFloored | agents/qualitative_agent.py:291 | the floor at 0 never binds: the score is 25 less the four deductions |
| QualitativeAgent.RiskFactorsFullExactly | agents/qualitative_agent.py:235-291 | risk management keeps all 25 points exactly when beta is not at least 1.0, D/E not at least 100, revenue growth not negative and current ratio not below 1.0 (so NaN passes each) |
| QualitativeAgent.RiskRungsAtDefaults | agents/qualitative_agent.py:245-289 | at the missing-value defaults beta 1.0 deducts 2 and the other three deduct nothing |
| QualitativeAgent.RiskRungValues | agents/qualitative_agent.py:245-287 | each deduction exactly: beta 8 from 1.5, 5 from 1.2, 2 from 1.0; D/E 7 from 200, 4 from 100; revenue 6 below -10%, 3 below 0; current ratio 4 below 0.8, 2 below 1.0 |
| QualitativeAgent.EmptyInfoRiskFactors | agents/qualitative_agent.py:235-291 | with no data at all risk management scores 23 |
| QualitativeAgent.BusinessModelBands | agents/qualitative_agent.py:52-101 | market cap scores 8 from 100조, 7 from 50조, 5 from 10조, 3 from 1조 and 1 below, each exactly; gross margin scores 7 from 50%, 5 from 30%, 3 from 15% and 1 below, each exactly |
| QualitativeAgent.DiversificationBands | agents/qualitative_agent.py:70-85 | diversification scores 6 exactly for a diversified sector, else 5 exactly when the lowered industry names semiconductors, electronics, banking or finance, else 3 |
| QualitativeAgent.DiversifiedSectorScoresSix | agents/qualitative_agent.py:69-85 | a diversified sector earns the full 6 points whatever the industry |
| QualitativeAgent.ManagementBands | agents/qualitative_agent.py:124-146 | dividend yield scores 10 from 3%, 8 from 2%, 5 from 1%, 3 when positive and 0 otherwise, each exactly; payout scores 5 exactly strictly between 0 and 60 and 3 exactly from 60 |
| QualitativeAgent.GovernanceBands | agents/qualitative_agent.py:155-168 | institutions score 3 exactly from 30% and otherwise nothing; employees score 4 exactly above 10000, 2 exactly above 1000 and otherwise nothing |
| QualitativeAgent.IndustryOutlookBands | agents/qualitative_agent.py:219-231 | beta scores 7 from 1.2, 5 from 0.9, 4 from 0.7 and 2 below, each exactly |
| QualitativeAgent.SectorAndTechnologyBands | agents/qualitative_agent.py:185-216 | the sector scores 10 for the growth sectors, 7 for the stable ones, 5 for the defensive ones and 4 for any other, each exactly; the industry scores 8 for a listed technology, then 6 for electronics, 4 for banking and 3 otherwise, each exactly |
| QualitativeAgent.WideMoatNeedsSize | agents/qualitative_agent.py:299-304 | without a market cap above 50조 the moat is never Wide, and Narrow exactly when the margins reach 0.3 and 0.1 |
| QualitativeAgent.NaNFallsThrough | agents/qualitative_agent.py:52-304 | a NaN reading fails every comparison and takes each ladder's last branch; zero institutional holdings are a risk, NaN ones are not |
| QualitativeAgent.ScoredNoneRaises | agents/qualitative_agent.py:52-283 | a None in any of the twelve scored entries makes `analyze` raise TypeError |
| QualitativeAgent.NoNoneNeverRaises | agents/qualitative_agent.py:306-382 | an `info` with no None entry never raises, whatever NaN entries it holds |
| QualitativeAgent.MoatNoneOperatingMargin | agents/qualitative_agent.py:295-303 | with a None operating margin the moat test raises exactly when the gross margin reaches 0.3, and otherwise rates NoMoat |
| QuantAgent.MetricOf | agents/quant_agent.py:48-53 | the stored value when the key holds a number; the default when the key is missing, None or NaN |
| QuantAgent.ProfitabilityVerdict | agents/quant_agent.py:55-133 | the ROE, ROA, operating-margin and net-margin ladders in order, clamped to at most 25 |
| QuantAgent.GrowthVerdict | agents/quant_agent.py:135-194 | the revenue, earnings and EPS growth ladders in order, clamped to at most 25 |
| QuantAgent.CashFlowMargin | agents/quant_agent.py:239-242 | operating cash flow as a percentage of revenue when revenue is positive, 0 otherwise |
| QuantAgent.StabilityVerdict | agents/quant_agent.py:196-257 | the debt-to-equity, current-ratio and cash-flow ladders in order, clamped to at most 25 |
| QuantAgent.ValuationVerdict | agents/quant_agent.py:259-338 | the PER, PBR, PEG and EV/EBITDA ladders in order, clamped to at most 25 |
| QuantAgent.PeerTier | agents/quant_agent.py:346-355 | 상위 exactly from 80, 중상위 exactly in [60, 80), 중위 exactly in [40, 60), 하위 exactly below 40 |
| QuantAgent.QuantLabels | agents/quant_agent.py:414-442 | the peer-comparison field of the result is the peer tier of the total |
| QuantAgent.Assemble | agents/quant_agent.py:396-442 | the breakdown lists the four dimension scores in order, the total lies in [0, 100] with BUY from 70, HOLD from 50, SELL below, and the peer tier is that of the total |
| QuantAgent.QuantReport | agents/quant_agent.py:357-442 | once the data is fetched, the breakdown is the four dimension verdicts of `info` in order, with the total and recommendation as above |
| QuantAgent.QuantAnalysisAgent.constructor | agents/quant_agent.py:19-29 | a new agent holds an empty `info`, no scores and no metrics |
| QuantAgent.QuantAnalysisAgent.PeerComparison | agents/quant_agent.py:340-355 | the tier of the sum of the stored sub-scores, 하위 when none is stored |
| QuantAgent.QuantAnalysisAgent.AnalyzeProfitability | agents/quant_agent.py:55-133 | the profitability verdict of `info`, with ROE, ROA and both margins recorded as percentages in `metrics` |
| QuantAgent.QuantAnalysisAgent.AnalyzeGrowth | agents/quant_agent.py:135-194 | the growth verdict of `info`, with the three growth rates recorded in `metrics` |
| QuantAgent.QuantAnalysisAgent.AnalyzeStability | agents/quant_agent.py:196-257 | the stability verdict of `info`, with D/E, current ratio and cash-flow margin recorded in `metrics` |
| QuantAgent.QuantAnalysisAgent.AnalyzeValuation | agents/quant_agent.py:259-338 | the valuation verdict of `info`, with PER, forward PER, PBR, PEG and EV/EBITDA recorded in `metrics` |
| QuantAgent.QuantAnalysisAgent.Analyze | agents/quant_agent.py:357-442 | a failed fetch yields the error record and changes nothing; otherwise `info` is the fetched data, each sub-score is stored under its dimension and the result is the report of `info` |
| QuantAgent.ProfitabilityBands | agents/quant_agent.py:64-131 | each profitability ladder's range and top band, with a risk exactly for a non-positive figure, which then scores 0 |
| QuantAgent.GrowthBands | agents/quant_agent.py:144-192 | each growth ladder's range and top band, with a risk exactly for a non-positive rate, which then scores 0 |
| QuantAgent.StabilityBands | agents/quant_agent.py:205-255 | D/E scores 10 exactly at or below 50 and 0 exactly above 200, and is a risk exactly above 150; the current-ratio and cash-flow ladders' ranges and risks |
| QuantAgent.ValuationBands | agents/quant_agent.py:268-336 | PER scores 8 exactly in [8, 15] and 0 exactly above 30, and is a risk exactly above 20; the PBR, PEG and EV/EBITDA ladders' ranges, with a non-positive PEG scoring like one in (1, 1.5] |
| QuantAgent.ProfitabilityNeverClamped | agents/quant_agent.py:133 | the ladder maxima add up to 25, so the profitability clamp never binds and the score is the plain sum of the ladders |
| QuantAgent.GrowthNeverClamped | agents/quant_agent.py:194 | the growth clamp never binds: the score is the plain sum of the ladders |
| QuantAgent.StabilityNeverClamped | agents/quant_agent.py:257 | the stability clamp never binds: the score is the plain sum of the ladders |
| QuantAgent.ValuationNeverClamped | agents/quant_agent.py:338 | the valuation clamp never binds: the score is the plain sum of the ladders |
| QuantAgent.ProfitabilityMonotone | agents/quant_agent.py:64-131 | higher profitability figures never score fewer points |
| QuantAgent.StabilityMonotone | agents/quant_agent.py:205-255 | less debt, more liquidity and more cash flow never score fewer points |
| QuantAgent.EmptyInfoDefaults | agents/quant_agent.py:48-53 | with an empty `info` every metric reads as its default, so every percentage is 0 |
| QuantAgent.ProfitabilityRungsAllPoor | agents/quant_agent.py:64-131 | each profitability ladder at a non-positive figure gives 0 points and its risk |
| QuantAgent.ProfitabilityAllPoorScore | agents/quant_agent.py:55-133 | non-positive profitability figures score 0 |
| QuantAgent.ProfitabilityAllPoorRisks | agents/quant_agent.py:55-133 | non-positive profitability figures record four risks |
| QuantAgent.EmptyInfoProfitability | agents/quant_agent.py:55-133 | an empty `info` scores 0 in profitability, with four risks |
| QuantAgent.GrowthRungsAllDecline | agents/quant_agent.py:144-192 | each growth ladder at a non-positive rate gives 0 points and its decline risk |
| QuantAgent.GrowthAllDeclineScore | agents/quant_agent.py:135-194 | non-positive growth rates score 0 |
| QuantAgent.GrowthAllDeclineRisks | agents/quant_agent.py:135-194 | non-positive growth rates record three risks |
| QuantAgent.EmptyInfoGrowth | agents/quant_agent.py:135-194 | an empty `info` scores 0 in growth, with three risks |
| QuantAgent.StabilityAtDefaults | agents/quant_agent.py:205-255 | the stability defaults (D/E 100, current ratio 1.0, cash-flow margin 0) score 10 |
| QuantAgent.EmptyInfoStability | agents/quant_agent.py:196-257 | an empty `info` scores 10 in stability |
| QuantAgent.ValuationAtDefaults | agents/quant_agent.py:268-336 | the valuation defaults (PER 20, PBR 2, PEG 2, EV/EBITDA 12) score 12 |
| QuantAgent.EmptyInfoValuation | agents/quant_agent.py:259-338 | an empty `info` scores 12 in valuation |
| QuantAgent.EmptyInfoReport | agents/quant_agent.py:357-442 | an empty `info` totals 22, a SELL in the 하위 tier |
| QuantAgent.StoredSumAfterAnalyze | agents/quant_agent.py:379-396 | once the four sub-scores are stored, whatever was stored before, their sum is the report's total, so the peer comparison agrees with the report |
| TechnicalAgent.PriceTrendVerdict | agents/technical_agent.py:85-150 | the price-trend dimension over the rows left after dropping incomplete ones: exactly 12 with the shortage signal and risk under 60 rows, and only then; in [0, 25] |
| TechnicalAgent.MomentumVerdict | agents/technical_agent.py:152-217 | the momentum dimension: exactly 12 with the shortage signal and risk under 26 rows, and only then; in [0, 25] |
| TechnicalAgent.BollingerVerdict | agents/technical_agent.py:219-291 | the Bollinger dimension: 12 with the shortage tags under 20 rows, otherwise band position, squeeze and band direction capped at 25 |
| TechnicalAgent.VolumeVerdict | agents/technical_agent.py:293-360 | the volume dimension: 12 with the shortage tags under 20 rows, otherwise volume ratio, volume trend and OBV capped at 25 |
| TechnicalAgent.TechnicalReport | agents/technical_agent.py:362-437 | the error record exactly for an empty history; otherwise a breakdown of the four verdicts in order, a total in [0, 100] and BUY from 70, HOLD from 50, SELL below |
| TechnicalAgent.TechnicalAnalysisAgent.constructor | agents/technical_agent.py:19-25 | a new agent holds no data |
| TechnicalAgent.TechnicalAnalysisAgent.AnalyzePriceTrend | agents/technical_agent.py:85-150 | the method computes the price-trend verdict of the stored history |
| TechnicalAgent.TechnicalAnalysisAgent.AnalyzeMomentum | agents/technical_agent.py:152-217 | the method computes the momentum verdict of the stored history |
| TechnicalAgent.TechnicalAnalysisAgent.AnalyzeBollinger | agents/technical_agent.py:219-291 | the method computes the Bollinger verdict of the stored history |
| TechnicalAgent.TechnicalAnalysisAgent.AnalyzeVolume | agents/technical_agent.py:293-360 | the method computes the volume verdict of the stored history |
| TechnicalAgent.TechnicalAnalysisAgent.Analyze | agents/technical_agent.py:362-437 | a failed fetch yields the error record and leaves the data unchanged; otherwise the fetched history is stored and the report is the one of that history |
| TechnicalAgent.PriceTrendShortageExactly | agents/technical_agent.py:95-97 | the shortage signal appears in the price trend exactly when fewer than 60 complete rows remain |
| TechnicalAgent.MomentumShortageExactly | agents/technical_agent.py:163-165 | the shortage signal appears in momentum exactly when fewer than 26 complete rows remain |
| TechnicalAgent.BandsAndVolumeShortageExactly | agents/technical_agent.py:230-232 | the shortage signal appears in the Bollinger and volume dimensions exactly when fewer than 20 complete rows remain |
| TechnicalAgent.ShortageScoresTwelve | agents/technical_agent.py:304-306 | under 20 complete rows every dimension is exactly 12 points with one shortage signal and one shortage risk |
| TechnicalAgent.PriceTrendBands | agents/technical_agent.py:103-148 | alignment scores 10, 6, 2 or 0, 10 exactly for MA5 > MA20 > MA60, and a risk exactly when MA5 is not above MA20; the slope scores 7, 4, 2 or 0, 7 exactly above 2%, and a risk exactly at or below -0.5% |
| TechnicalAgent.PriceTrendCapBinds | agents/technical_agent.py:150 | the raw price-trend points can reach 28, and the cap brings them back to 25 |
| TechnicalAgent.MomentumBands | agents/technical_agent.py:170-215 | RSI scores 8 exactly in (50, 70), 4 at 70 or above or in (30, 50], nothing with a risk at or below 30; MACD scores 10, 8, 5, 3 or 0, 10 exactly on a golden cross, a risk exactly at 0; the histogram scores 7, 4, 3 or 0 and never adds a risk |
| TechnicalAgent.BollingerBands | agents/technical_agent.py:241-289 | band position scores 3 to 10, 10 exactly for %B in [0.4, 0.6], a risk exactly outside [0.2, 0.8]; the squeeze scores 8, 6, 5 or 4, 8 exactly when a squeeze starts; the band direction scores 7, 5, 3 or 0, a risk exactly at 0 |
| TechnicalAgent.VolumeBands | agents/technical_agent.py:313-358 | the volume ratio scores 10, 8, 6, 3 or 0, 0 exactly below 0.7; the volume trend scores 8, 5, 3 or 0, 0 exactly at or below 0.9; OBV scores 7, 5, 3 or 0, 7 exactly when both OBV and the close rose over four rows |
| NewsAgent.SentimentVerdict | agents/news_agent.py:46-113 | exactly 12 points with the no-news note, and no risk, when there are no articles and only then; in [0, 25] |
| NewsAgent.SocialVerdict | agents/news_agent.py:115-166 | 12 points with the no-data note for a missing history or one shorter than 5 days; otherwise the interest and volatility ladders, in [0, 25] |
| NewsAgent.EventVerdict | agents/news_agent.py:195-235 | 25 less the earnings, offering, lawsuit and executive deductions, with the no-risk note when nothing was recorded, floored at 0; in [0, 25] |
| NewsAgent.MomentumVerdict | agents/news_agent.py:237-301 | the corrected momentum: exactly 12 points with the shortage note, and no risk, when there is no price data or fewer than 20 days, and only then; in [0, 25] |
| NewsAgent.MomentumAsWritten | agents/news_agent.py:246-251 | the momentum as guarded in the source raises IndexError exactly for a history of 10 to 19 days |
| NewsAgent.TrendOf | agents/news_agent.py:308-316 | Improving exactly for a 5-day return above 5% with a positive 20-day return, Declining exactly for the mirror case, Stable otherwise; never Unknown |
| NewsAgent.SentimentTrend | agents/news_agent.py:303-316 | the corrected trend: Unknown exactly for a missing history or one shorter than 20 days |
| NewsAgent.SentimentTrendAsWritten | agents/news_agent.py:305-309 | the trend as guarded in the source raises IndexError exactly for a history of 10 to 19 days |
| NewsAgent.NewsReport | agents/news_agent.py:318-407 | with the corrected event keywords and 20-day guard (see Findings), the breakdown is the sentiment, social, event and momentum verdicts in order; the total lies in [0, 100] with BUY from 70, HOLD from 50, SELL below; the result carries the sentiment trend and the article count |
| NewsAgent.TallyHeadline | agents/news_agent.py:190-193 | with the corrected keywords (see Findings), one lowered headline adds one to the count of every event kind whose keywords it contains and leaves the others as they were |
| NewsAgent.CountEventMentions | agents/news_agent.py:187-193 | with the corrected keywords (see Findings), for each event kind the count is the number of headlines that mention one of its keywords |
| NewsAgent.NewsSentimentAgent.constructor | agents/news_agent.py:20-27 | a new agent holds no news, no price history and no scores |
| NewsAgent.NewsSentimentAgent.AnalyzeNewsSentiment | agents/news_agent.py:46-113 | the loop that classifies the first 20 articles computes the sentiment verdict |
| NewsAgent.NewsSentimentAgent.AnalyzeSocialMedia | agents/news_agent.py:115-166 | the method computes the social verdict of the stored history |
| NewsAgent.NewsSentimentAgent.AnalyzeEventRisk | agents/news_agent.py:168-235 | with the corrected keywords (see Findings), counting the event mentions of the first 15 headlines and deducting from 25 gives the event verdict |
| NewsAgent.NewsSentimentAgent.AnalyzeMomentumSignals | agents/news_agent.py:237-301 | the method computes the corrected momentum verdict of the stored history |
| NewsAgent.NewsSentimentAgent.GetSentimentTrend | agents/news_agent.py:303-316 | the method computes the corrected sentiment trend of the stored history |
| NewsAgent.NewsSentimentAgent.Analyze | agents/news_agent.py:318-407 | the corrected analysis (see Findings): a failed fetch yields the error record and changes nothing; otherwise the fetched news and history are stored, each sub-score is stored under its dimension, and the result is the report of the stored data |
| NewsAgent.CountsPartition | agents/news_agent.py:68-82 | every article is counted in exactly one of the positive, negative and neutral classes |
| NewsAgent.SentimentIgnoresLaterArticles | agents/news_agent.py:66-111 | only the first 20 articles are classified: beyond them, only whether there are at least 10 articles matters |
| NewsAgent.RatioBands | agents/news_agent.py:84-103 | the ratio ladder scores 25, 20, 15, 8 or 3; 25 exactly when at least half the articles are positive, 3 exactly when fewer than a fifth are, and only 3 is a risk |
| NewsAgent.EventNeverFloored | agents/news_agent.py:235 | the event deductions never go below 0, so the floor never binds |
| NewsAgent.EventRungRisks | agents/news_agent.py:195-228 | each event rung records a risk exactly when it deducts points, and never adds points |
| NewsAgent.DeductionsScore | agents/news_agent.py:173-228 | the event score is 25 plus the four deductions |
| NewsAgent.DeductionsRisks | agents/news_agent.py:195-228 | the event risks are those of the four deducting rungs, in order |
| NewsAgent.DeductionsOmitNote | agents/news_agent.py:195-228 | no event rung itself emits the no-risk note |
| NewsAgent.NoEventRiskExactly | agents/news_agent.py:230-233 | the no-risk note is emitted exactly when no risk was recorded, which is exactly when the score stays at 25 |
| NewsAgent.SocialBands | agents/news_agent.py:134-164 | the interest ladder scores 15, 12, 8 or 4, the volatility ladder 10, 7, 5 or 2, and together they never pass 25 |
| NewsAgent.MomentumBands | agents/news_agent.py:253-299 | the momentum ladders score 10/8/5/2/0, 8/6/4/2/0 and 7/5/3/1/0, and together they never pass 25 |
| NewsAgent.ShortPriceDataScoresTwelve | agents/news_agent.py:127-128 | a missing history or one shorter than 5 days scores 12 with the matching note in the social and momentum dimensions, and the trend is Unknown |
| NewsAgent.MomentumAsWrittenRaisesOnShortHistory | agents/news_agent.py:246-251 | on a 15-day history the momentum as written raises IndexError, while the corrected one scores 12 with the shortage note |
| NewsAgent.MomentumCorrectedAgrees | agents/news_agent.py:237-301 | wherever the momentum as written does not raise, the corrected one gives the same result |
| NewsAgent.TrendAsWrittenRaisesOnShortHistory | agents/news_agent.py:305-309 | on a 15-day history the trend as written raises IndexError, while the corrected one is Unknown |
| NewsAgent.TrendCorrectedAgrees | agents/news_agent.py:303-316 | wherever the trend as written does not raise, the corrected one gives the same result |
| NewsAgent.EventKeywords | agents/news_agent.py:178-185 | the corrected keyword lists hold no upper-case letter, so matching them against a lowered headline ignores case |
| NewsAgent.EventKeywordsAsWritten | agents/news_agent.py:178-185 | the source's keyword lists: the same as the corrected ones except for earnings and executive events, and each keyword lowers to its corrected counterpart |
| NewsAgent.UpperEventKeywordsNeverMatch | agents/news_agent.py:180-192 | the source's keywords "EPS" and "CEO" never occur in a lowered headline |
| NewsAgent.EpsHeadlineMissedAsWritten | agents/news_agent.py:180-192 | the headline "EPS" is missed by the source's earnings keywords and counted by the lowered ones |
| NewsAgent.LoweredKeywordsCatchUpperCase | agents/news_agent.py:180-192 | with the lowered keywords, a headline containing "EPS" or "CEO" counts as an earnings or executive mention |
| ScannerCommon.NameOr | oneil_scanner.py:190-205 | the mapped Korean name of a known symbol, the symbol itself otherwise |
| ScannerCommon.VolumeRatio | oneil_scanner.py:88-89 | the current volume over the average when the average is positive, 0 otherwise |
| ScannerCommon.VolumeRatioNonNegative | livermore_scanner.py:94 | the volume ratio of a non-negative volume is never negative |
| ScannerCommon.MaxOf | livermore_scanner.py:82 | the maximum of a non-empty column is one of its values and at least every value |
| ScannerCommon.High52Week | livermore_scanner.py:82 | the 52-week high is one of the last 252 highs and at least every one of them |
| ScannerCommon.FoundStep | oneil_scanner.py:244-252 | scanning one more symbol appends its result when the analysis accepts the stock |
| ScannerCommon.FoundExactly | oneil_scanner.py:244-252 | the scan keeps at most one result per symbol, and a result is kept exactly when the analysis of some symbol accepted it |
| ScannerCommon.ByScoreShape | oneil_scanner.py:258 | sorting by score keeps the same results, puts the highest score first, and keeps the scan order among equal scores |
| ScannerCommon.ByScoreKeeps | oneil_scanner.py:258 | every sorted result satisfies whatever every scanned result satisfies |
| Livermore.FetchData | livermore_scanner.py:59-70 | a download is kept exactly when it succeeded and holds at least 60 rows |
| Livermore.Bands | livermore_scanner.py:114-149 | the new-high, volume, band-width and trend bands in order; the score lies in [0, 100] with at most five signals |
| Livermore.ResultOf | livermore_scanner.py:155-189 | the result of a kept stock carries its symbol, its Korean name (the symbol when unknown), its 52-week high and the band score and signals |
| Livermore.AnalyzeBreakout | livermore_scanner.py:72-189 | a result only for a history of at least 60 rows whose close is at least 98% of the 52-week high, and then the scored result with 60 to 100 points |
| Livermore.Scanner.constructor | livermore_scanner.py:27-29 | a new scanner holds the KOSPI watchlist and no results |
| Livermore.Scanner.Scan | livermore_scanner.py:192-214 | the loop analyses every watchlist symbol in order; the kept results, sorted by score from highest, are returned and stored |
| Livermore.BreakoutBands | livermore_scanner.py:118-135 | the new high scores 40 exactly at or above the 52-week high, 30 exactly within 1% below it, else 0; volume scores 30 exactly from 2x, 20 exactly in [1.5x, 2x), 10 exactly in [1.2x, 1.5x), 0 below |
| Livermore.ShapeBandValues | livermore_scanner.py:137-148 | compression and expansion each add 10 points and their own signal exactly when they hold; the trend adds 10 with its signal exactly when the close is above MA20 above MA60 |
| Livermore.BandsAreLadders | livermore_scanner.py:114-149 | the score is the sum of the new-high, volume, band-width and trend ladders |
| Livermore.AcceptedExactly | livermore_scanner.py:72-152 | a stock is kept exactly when its history holds at least 60 rows, its close is at least 98% of the 52-week high and it reaches 60 points |
| Livermore.NewHighMeansAboveEveryHigh | livermore_scanner.py:82-120 | a close that earns the new-high points is at or above every high of the last 252 rows |
| Livermore.BandsExclusive | livermore_scanner.py:104-152 | compression and expansion exclude each other for a non-negative average width, so the score is at most 90 and a kept stock closes within 1% of its high |
| Livermore.ScanShape | livermore_scanner.py:192-214 | the scan keeps at most one result per symbol, every result has 60 to 100 points, and the list runs from the highest score down |
| Oneil.FetchData | oneil_scanner.py:62-72 | a download is kept exactly when it succeeded and holds at least 50 rows |
| Oneil.Bands | oneil_scanner.py:141-184 | the volume, price, breakout, accumulation and relative-strength bands in order; the score lies in [0, 100] with at most five signals |
| Oneil.ClassifyPatternAsWritten | oneil_scanner.py:226-236 | as written, STRONG_BREAKOUT exactly for a 3x spike, a 5% surge label and a 50-day breakout, and VOLUME_EXPLOSION exactly for the spike and surge label without the breakout |
| Oneil.ClassifyPattern | oneil_scanner.py:226-236 | the corrected classification counts a 10% surge as a surge of at least 5%, so STRONG_BREAKOUT exactly for a 3x spike, either surge label and a 50-day breakout; on signals without a 10% surge it agrees with the classification as written |
| Oneil.ResultOf | oneil_scanner.py:189-220 | the result of a kept stock carries its symbol, its Korean name (the symbol when unknown), the band score and signals and the corrected pattern of those signals (see Findings) |
| Oneil.VolumePattern | oneil_scanner.py:74-220 | a result only for a history of at least 50 rows whose last day rose, and then the scored result with 50 to 100 points and the corrected pattern (see Findings) |
| Oneil.Scanner.constructor | oneil_scanner.py:33-35 | a new scanner holds the KOSPI watchlist and no results |
| Oneil.Scanner.Scan | oneil_scanner.py:238-261 | with the corrected pattern (see Findings), the loop analyses every watchlist symbol in order; the kept results, sorted by score from highest, are returned and stored |
| Oneil.OneilBands | oneil_scanner.py:145-166 | volume scores 40 exactly from 3x, 35 exactly in [2x, 3x), 25 exactly in [1.5x, 2x), 0 below; the price change scores 30 exactly from 10%, 25 exactly in [5, 10), 15 exactly in [3, 5), 0 below |
| Oneil.ConfirmingRungValues | oneil_scanner.py:166-183 | breakout scores 15 at a 50-day breakout, else 10 at a 20-day one, else 0; accumulation 10 or 0; relative strength 5 or 0; each exactly and with its signal |
| Oneil.BandsAreLadders | oneil_scanner.py:141-184 | the score is the sum of the volume, price, breakout, accumulation and relative-strength ladders |
| Oneil.AcceptedExactly | oneil_scanner.py:74-187 | a stock is kept exactly when its history holds at least 50 rows, its last day rose and it reaches 50 points |
| Oneil.ZeroAverageVolume | oneil_scanner.py:88 | with a zero 50-day average volume the ratio is 0 and earns no volume points |
| Oneil.AcceptedWithoutVolumeSpike | oneil_scanner.py:145-187 | a stock kept without a 1.5x volume spike rose at least 5% |
| Oneil.VolumeSignalsExclusive | oneil_scanner.py:145-166 | a 3x spike is never also labelled a 2x spike, and a 10% surge never also a 5% surge |
| Oneil.StrongBreakoutExactly | oneil_scanner.py:226-231 | under the corrected classification a stock is STRONG_BREAKOUT exactly with a 3x volume spike, a gain of at least 5% and a 50-day breakout |
| Oneil.CoreSignals | oneil_scanner.py:144-163 | the volume and price bands report a 3x spike exactly from a 3x ratio, a surge of 5% or more exactly from a 5% gain, and never a breakout |
| Oneil.ConfirmingSignals | oneil_scanner.py:165-183 | the breakout, accumulation and relative-strength bands report a 50-day breakout exactly on one, and never a volume spike or a price surge |
| Oneil.TenPercentSurgeMisclassified | oneil_scanner.py:226-236 | a stock with a 3x spike, a 12% gain and a 50-day breakout scores 85, yet the classification as written calls it VOLUME_INCREASE; the corrected one calls it STRONG_BREAKOUT |
| Oneil.ScanShape | oneil_scanner.py:238-261 | with the corrected pattern (see Findings), the scan keeps at most one result per symbol, every result has 50 to 100 points and its pattern, and the list runs from the highest score down |
| Minervini.FetchData | minervini_scanner.py:47-56 | a download is kept exactly when it succeeded and holds at least 50 rows |
| Minervini.VcpStage | minervini_scanner.py:164-178 | the VCP stage the volatility band sets lies in [0, 3] |
| Minervini.Bands | minervini_scanner.py:160-208 | the volatility, volume, range, pullback and resistance bands in order; the score lies in [0, 100] with at most five signals |
| Minervini.SetupRungValues | minervini_scanner.py:180-206 | volume scores 25 on a dry-up, else 20 on a contraction, else 0; the range 20 below 10%, 15 below 15%, else 0; the pullback 15 when improving and under 10%, else 10 when improving, else 0; resistance 10 or 0; each exactly and with its signal |
| Minervini.BandsAreLadders | minervini_scanner.py:160-208 | the score is the sum of the five ladders and the signals are theirs, in band order |
| Minervini.ResultOf | minervini_scanner.py:217-252 | the result of a kept stock carries its symbol, its Korean name (the symbol when unknown), its VCP stage, the band score and signals and the setup grade of score and stage |
| Minervini.VcpPatternOf | minervini_scanner.py:68-252 | a result only for a history of at least 50 rows in the stage-2 uptrend, which needs 59 rows because the 50-day average 9 rows back is NaN before that, with volatility contraction or a tight range, and then the scored result with 50 to 100 points |
| Minervini.Scanner.constructor | minervini_scanner.py:34-36 | a new scanner holds the KOSPI watchlist and no results |
| Minervini.Scanner.Scan | minervini_scanner.py:265-287 | the loop analyses every watchlist symbol in order; the kept results, sorted by score from highest, are returned and stored |
| Minervini.VolatilityBandStage | minervini_scanner.py:164-178 | the volatility band scores 30, 25, 15 or 0 exactly at stages 3, 2, 1 and 0; the stage is at least 2 exactly under volatility contraction, and 3 exactly when the strong-VCP signal is emitted |
| Minervini.SetupExactly | minervini_scanner.py:254-263 | PERFECT_VCP exactly from 80 points at stage 3, HIGH_QUALITY exactly from 70 at stage 2 otherwise, GOOD_SETUP exactly from 60 otherwise, EARLY_STAGE exactly below 60 |
| Minervini.AcceptedExactly | minervini_scanner.py:68-215 | a stock is kept exactly when it has the history, the uptrend (at least 59 rows, a close above the 50-day average and that average above its value 9 rows back), volatility contraction or a tight range, and 50 points |
| Minervini.ShortHistoryNeverKept | minervini_scanner.py:77-88 | a history of fewer than 59 rows is never kept: the 50-day average 9 rows back is NaN and the rising-average test fails |
| Minervini.KeptSetups | minervini_scanner.py:160-263 | a kept PERFECT_VCP carries the strong-VCP signal; a kept stock is EARLY_STAGE exactly below 60; a kept stock without volatility contraction is in a tight range at stage 1 or below and takes at least 15 points from volume, pullback and resistance |
| Minervini.ScanShape | minervini_scanner.py:265-287 | the scan keeps at most one result per symbol, every result has 50 to 100 points and the grade of its score and stage, and the list runs from the highest score down |
| Kosdaq.FetchData | kosdaq_scanner.py:70-79 | a download is kept exactly when it succeeded and holds at least 30 rows |
| Kosdaq.LivermoreBands | kosdaq_scanner.py:104-129 | the simplified Livermore bands (new high, volume, trend) in order; the score lies in [0, 80] with at most three signals |
| Kosdaq.LivermoreBandValues | kosdaq_scanner.py:104-127 | the high scores 40 at or above it, 30 within 1% below, else 0; volume 30 from 2x, 20 from 1.5x, else 0; the trend 10 or 0; each exactly, and the score is their sum |
| Kosdaq.ScanLivermore | kosdaq_scanner.py:81-142 | a pick only for a history of at least 60 rows whose close is at least 98% of the 52-week high and which reaches 60 points; the pick carries the symbol, its Korean name, and the score and signals of LivermoreBands at that high |
| Kosdaq.OneilBands | kosdaq_scanner.py:165-193 | the simplified O'Neil bands (volume, price, 20-day breakout) in order; the score lies in [0, 85] with at most three signals |
| Kosdaq.OneilBandValues | kosdaq_scanner.py:167-185 | volume scores 40 from 3x, 35 from 2x, 25 from 1.5x, else 0; the price change 30 from 10%, 25 from 5%, 15 from 3%, else 0; each exactly |
| Kosdaq.OneilBandsAreLadders | kosdaq_scanner.py:165-193 | the 20-day breakout adds 15 exactly within 2% of the 20-day high, and the score is the sum of the three ladders |
| Kosdaq.ScanOneil | kosdaq_scanner.py:144-206 | a pick only for a history of at least 50 rows whose last day rose on at least 1.5 times the 50-day volume and which reaches 50 points; the pick carries the symbol, its Korean name, and the score (volume band + price band + breakout band) and signals of OneilBands |
| Kosdaq.MinerviniBands | kosdaq_scanner.py:256-276 | the simplified Minervini bands (volatility, range) in order; the score lies in [0, 50] |
| Kosdaq.MinerviniBandValues | kosdaq_scanner.py:260-274 | volatility scores 30 on a strong contraction, 25 on a contraction, else 0; the range 20 below 10%, 15 below 15%, else 0; each exactly, and the score is their sum |
| Kosdaq.ScanMinervini | kosdaq_scanner.py:208-289 | a pick only for a history of at least 59 rows (the 50-day average 9 rows back is NaN before that) closing above a rising 50-day average, with contraction or a range within 15%, and 50 points |
| Kosdaq.PicksAreFound | kosdaq_scanner.py:296-325 | each strategy's list holds that strategy's accepted picks in watchlist order |
| Kosdaq.ScanSymbol | kosdaq_scanner.py:299-321 | one pass of the loop fetches the symbol once and scores it by each strategy in turn |
| Kosdaq.Scanner.constructor | kosdaq_scanner.py:26-67 | a new scanner holds the KOSDAQ watchlist and name map and three empty lists |
| Kosdaq.Scanner.ScanAll | kosdaq_scanner.py:291-331 | each strategy's list becomes its earlier picks followed by the new ones, sorted by score from highest |
| Kosdaq.ScanWatchlist | kosdaq_scanner.py:296-325 | the loop over the watchlist yields the three strategies' picks in watchlist order |
| Kosdaq.HighAsWrittenIsWindowHigh | kosdaq_scanner.py:89 | the two-way 52-week high equals the high of the last 252 rows whether or not the history is that long |
| Kosdaq.LivermoreNeedsNearHigh | kosdaq_scanner.py:104-130 | the simplified Livermore score reaches 60 only at or within 1% of the high |
| Kosdaq.MinerviniPicksScoreFifty | kosdaq_scanner.py:256-277 | the simplified Minervini score is at most 50, so every pick has exactly 50 points, the strong-VCP and tight-range signals, stage 3 and a range below 10% |
| Kosdaq.AcceptedExactly | kosdaq_scanner.py:81-289 | each strategy picks a stock exactly when all of its gates hold |
| Kosdaq.ShortHistoryNoMinervini | kosdaq_scanner.py:226-234 | a history of fewer than 59 rows gets no Minervini pick: the 50-day average 9 rows back is NaN and the rising-average test fails |
| Kosdaq.NoDataNoPicks | kosdaq_scanner.py:301-304 | a symbol whose download fails or is too short gets no pick from any strategy |
| Kosdaq.ScanAllShape | kosdaq_scanner.py:291-331 | each strategy's picks carry that strategy and its score range, at most one per symbol, and each sorted list runs from the highest score down |
| Level1Common.RunAgents | daily_level1_fdr.py:155-193 | the entries recorded are exactly those of the calls, in TECH, QUANT, QUAL, NEWS order, that returned before the first one that raised, and the reported failure is that call's message |
| Level1Common.UnrollRuns | daily_level1_fdr.py:155-208 | the first-raised message and the recorded entries of the four calls, written out case by case |
| Level1Common.CompletedShape | daily_level1_fdr.py:155-208 | at most one entry per call, keyed in call order; all calls recorded exactly when none raised, otherwise exactly those before the raising call |
| Level1Common.AllRanCompleted | daily_level1_batch.py:53-76 | when no call raised there is no failure and all four entries are recorded, keyed TECH, QUANT, QUAL, NEWS with each report's score and recommendation |
| Level1Common.Scores | daily_level1_fdr.py:197 | the score list has one element per entry, in entry order |
| Level1Common.Recs | daily_level1_fdr.py:200 | the recommendation list has one element per entry, in entry order |
| Level1Common.MeanBounds | daily_level1_fdr.py:198 | the mean of scores that all lie in [lo, hi] lies in [lo, hi] |
| Level1Common.VotesPartition | agents/test_level1_all.py:92-95 | the BUY, HOLD and SELL counts add up to the number of recommendations |
| Level1Common.ConsensusWithSell | agents/test_level1_all.py:97-104 | STRONG BUY exactly from three buys, BUY exactly at two buys, SELL exactly at fewer than two buys and two sells, HOLD otherwise |
| Level1Common.ConsensusBuyOnly | daily_level1_fdr.py:201-202 | never SELL; STRONG BUY exactly from three buys, BUY exactly at two, HOLD below two |
| Level1Common.ConsensusRulesAgree | daily_level1_fdr.py:202 | the batch rule equals the integration-test rule, except that the latter's SELL is the former's HOLD |
| Level1Common.FourVotesConsensus | agents/test_level1_all.py:92-104 | with four votes SELL needs two sells and at most one buy, and two buys beat two sells |
| Level1Common.AnalyzeStock | daily_level1_fdr.py:138-210 | the result record the step-by-step try block builds equals the specification function of one stock's analysis |
| Level1Common.AnalyzedSuccessExactly | daily_level1_fdr.py:155-208 | a stock succeeds exactly when all four calls returned; its average is then the mean of their four totals and its consensus is the buy-only rule on their BUY votes |
| Level1Common.AnalyzedErrorKeepsEarlierEntries | daily_level1_fdr.py:205-208 | an error result carries the entries recorded before the raising call and that call's message |
| Level1Common.Successes | daily_level1_fdr.py:241 | the successful results are exactly the results whose status is success, none added |
| Level1Common.CountMarket | daily_level1_fdr.py:242-243 | a per-market count never exceeds the number of results |
| Level1Common.MarketCountsFit | daily_level1_fdr.py:242-243 | the counts of two different markets together never exceed the number of results |
| Level1Common.TopShape | daily_level1_fdr.py:259-263 | the top list holds min(n, successes) successful results, ordered by average from highest down |
| Level1All.RunAllLevel1Agents | agents/test_level1_all.py:19-129 | four entries TECH_001, QUANT_001, QUAL_001, NEWS_001 in call order with each agent's score and recommendation (0 and HOLD by default) and its detail (first three key signals, key metrics, moat rating, sentiment trend); the summary's mean score, vote counts adding up to 4, and the consensus with a SELL branch |
| Level1All.AverageBounds | agents/test_level1_all.py:88-89 | the average of Level-1 totals in [0, 100] lies in [0, 100] |
| Level1All.FailedAgentDefaults | agents/test_level1_all.py:39-85 | an agent whose data fetch failed counts as a 0-point HOLD with moat rating 'None' and sentiment trend 'Unknown' |
| Level1Batch.AnalyzeBatchStock | daily_level1_batch.py:46-83 | the result the step-by-step try block builds equals the specification function of this runner's analysis |
| Level1Batch.BatchAgreesWithAnalyzed | daily_level1_batch.py:46-83 | this runner's result has the same entries as the other runners', succeeds exactly when theirs does with the same average, and fails with the same message |
| Level1Batch.BatchSuccessExactly | daily_level1_batch.py:53-81 | a stock succeeds exactly when all four calls returned, with the mean of the four totals as average |
| Level1Batch.SuccessCount | daily_level1_batch.py:107 | the success count never exceeds the number of results |
| Level1Batch.SuccessCountAll | daily_level1_batch.py:107 | the success count equals the total exactly when every result succeeded |
| Level1Batch.RunDailyBatch | daily_level1_batch.py:85-109 | all 25 listed stocks analysed in list order, one result each, and the success count of those results |
| Level1Fdr.ListStocks | daily_level1_fdr.py:49-62 | the loop over the first `limit` listing rows yields exactly the listed stocks of those rows |
| Level1Fdr.ListedExactly | daily_level1_fdr.py:50-59 | a stock is listed exactly when it is made from a row with a code and a name, with the market suffix, the market tag and the row's sector or 'Unknown'; never more stocks than rows |
| Level1Fdr.ListedSymbols | daily_level1_fdr.py:55-58 | every listed symbol is a non-empty code followed by the suffix, with a non-empty name, the market tag and a sector |
| Level1Fdr.GetKospiStocks | daily_level1_fdr.py:40-66 | with no listing, the first `limit` fallback entries; otherwise the complete rows among the first `limit`, suffixed .KS; every stock tagged KOSPI |
| Level1Fdr.GetKosdaqStocks | daily_level1_fdr.py:68-94 | the same with suffix .KQ, the KOSDAQ fallback and the KOSDAQ tag |
| Level1Fdr.GetAllStocks | daily_level1_fdr.py:123-127 | the KOSPI stocks first, then the KOSDAQ stocks, each part as its reader returns it |
| Level1Fdr.RunBatch | daily_level1_fdr.py:212-270 | every stock analysed in list order with 'UNKNOWN' as the default market; total, success count, per-market counts adding up to the total, and the top 10 by average |
| Level1Fdr.AnalyzeAll | daily_level1_fdr.py:225-264 | for stocks whose first n are KOSPI and the rest KOSDAQ: one result per stock in order with 'UNKNOWN' as the default market, the success count, KOSPI and KOSDAQ counts of exactly n and the remainder, and the top 10 by average |
| Level1Fdr.TaggedCounts | daily_level1_fdr.py:242-243 | results whose first n are KOSPI and the rest KOSDAQ count n and the remainder |
| Level1FullMarket.Selected | daily_level1_fullmarket.py:163-164 | a missing or zero count takes the whole list, a positive one its first `count` entries |
| Level1FullMarket.Tagged | daily_level1_fullmarket.py:167-170 | the same stocks in the same order, each with the market tag set |
| Level1FullMarket.TagMarket | daily_level1_fullmarket.py:167-170 | the tagging loop yields the tagged list |
| Level1FullMarket.SectorOrderExactly | daily_level1_fullmarket.py:227-232 | every sector of the results appears once in the sector order, in first-appearance order, and only sectors with at least one score appear |
| Level1FullMarket.GroupBySector | daily_level1_fullmarket.py:227-232 | the grouping loop's keys are exactly the sectors of the successful results, each holding that sector's averages in result order |
| Level1FullMarket.SectorRows | daily_level1_fullmarket.py:235-236 | one row per sector in order, with the sector's mean average and stock count |
| Level1FullMarket.SectorAverages | daily_level1_fullmarket.py:235-236 | one row per sector of the successful results, sorted by mean from highest down, each the mean of that sector's averages over a non-zero count |
| Level1FullMarket.RunOnLists | daily_level1_fullmarket.py:167-240 | the two lists tagged with their markets, KOSPI first; every stock analysed in that order with 'KOSPI' as the default market; total, success and failed counts, per-market counts, the top 15 and the sorted sector table |
| Level1FullMarket.RunFullAnalysis | daily_level1_fullmarket.py:158-240 | the selected KOSPI then KOSDAQ stocks, tagged; every stock analysed in that order with 'KOSPI' as the default market; total, success and failed counts, per-market counts, the top 15 and the sorted sector table |
| Level1FullMarket.BuiltInListSizes | daily_level1_fullmarket.py:25-92 | the built-in lists hold 39 KOSPI and 20 KOSDAQ stocks, and selecting 10 of the KOSPI list takes 10 |
| AgentGroup.FirstWithIdExactly | investment_agent_group.py:379-381 | the lookup finds nothing exactly when no agent carries the id, and otherwise the first agent that does |
| AgentGroup.FirstWithIdAppend | investment_agent_group.py:378-382 | searching the agents of one level after another finds the first match in the earlier levels first |
| AgentGroup.GetAgent | investment_agent_group.py:376-382 | the nested scan returns the first agent with the id across the levels in order, or nothing (`{}`) |
| AgentGroup.AgentsUnder | investment_agent_group.py:387 | the agents under a level key are those of a level carrying that key, or none when no level does |
| AgentGroup.LevelKeyOne | investment_agent_group.py:386 | level 1, and only level 1, maps to `level_1_analysts` |
| AgentGroup.LevelKeyTwo | investment_agent_group.py:386 | level 2, and only level 2, maps to `level_2_managers` |
| AgentGroup.LevelKeyThree | investment_agent_group.py:386 | level 3, and only level 3, maps to `level_3_pm`; every other level gets a `_pm` key no level carries |
| AgentGroup.Listings | investment_agent_group.py:394-400 | one listing per agent, in order, each the agent's id, name, role, level and status |
| AgentGroup.ListAllAgents | investment_agent_group.py:389-401 | the loop lists every configured agent, level by level, in configuration order |
| AgentGroup.RequestDependencies | investment_agent_group.py:403-430 | the request's steps are levels 1, 2, 3; each later step depends on exactly the levels before it; only the last runs sequentially |
| AgentGroup.LoadOrCreate | investment_agent_group.py:26-374 | a stored configuration is used as it is; without one, the default roster |
| AgentGroup.DefaultRosterShape | investment_agent_group.py:36-305 | the default levels hold 4, 2 and 1 agents, each tagged with its level and status 'active', with weights adding up to 1 per level |
| AgentGroup.DefaultLevels | investment_agent_group.py:36-305 | the default roster has three levels under the keys of levels 1, 2 and 3, in order |
| AgentGroup.DefaultAllAgents | investment_agent_group.py:36-305 | the default roster's agents are the analysts, then the managers, then the portfolio manager |
| AgentGroup.DefaultLevelAgents | investment_agent_group.py:384-387 | on the default roster, levels 1 to 3 give their agents and every other level gives none |
| AgentGroup.RequestMatchesRoster | investment_agent_group.py:403-430 | each step of the request names exactly the ids of that level's default agents |
| AgentGroup.DefaultIds | investment_agent_group.py:41-296 | the default ids are TECH_001, QUANT_001, QUAL_001, NEWS_001; SECTOR_001, MACRO_001; PM_001 |
| AgentGroup.DefaultRosterLookup | investment_agent_group.py:376-382 | the default roster has seven agents and every default id is found, the portfolio manager as the last agent |
| Orchestrator.PromptShape | agent_orchestrator.py:51-64 | the prompt starts with the agent's template, and the symbol and name follow the stock heading |
| Orchestrator.AgentPrompt | agent_orchestrator.py:36-66 | the scan that stops both loops at the first agent with the id yields that agent's prompt, or "" when none has it |
| Orchestrator.StoredPrompt | agent_orchestrator.py:89 | the stored prompt is the first 200 characters of the prompt (all of a shorter one) followed by "..." |
| Orchestrator.FirstMissingAppend | agent_orchestrator.py:77-78 | the first unknown id of a concatenation is searched in the first part, then the second |
| Orchestrator.FirstMissingExactly | agent_orchestrator.py:77-78 | no id is unknown exactly when every id is found; a reported unknown id is the first one |
| Orchestrator.EntriesExactly | agent_orchestrator.py:77-94 | a level's map is keyed by exactly its ids, each entry made from that id's agent |
| Orchestrator.PrepareEntry | agent_orchestrator.py:78-92 | an unknown id yields no entry (`agent['name']` raises on `{}`); a known one its pending entry with the agent's name, role and stored prompt |
| Orchestrator.RunLevel | agent_orchestrator.py:77-96 | the loop yields one entry per id in order, or stops at the first unknown id |
| Orchestrator.EntriesStep | agent_orchestrator.py:77-92 | one more known id extends the map by exactly that id's entry |
| Orchestrator.MissingStep | agent_orchestrator.py:77-79 | an unknown id after known ones is the first unknown id |
| Orchestrator.RunLevel1Analysis | agent_orchestrator.py:68-96 | the four analysts' entries, with no inputs |
| Orchestrator.RunLevel2Analysis | agent_orchestrator.py:98-124 | the two managers' entries, each carrying the Level-1 map |
| Orchestrator.RunLevel3Decision | agent_orchestrator.py:126-152 | the single entry PM_001, carrying both earlier maps |
| Orchestrator.RunFullAnalysis | agent_orchestrator.py:162-201 | Level 1, then Level 2 given its output, then Level 3 given both, as the full outcome function states |
| Orchestrator.FullOutcomeMissing | agent_orchestrator.py:162-201 | the run completes exactly when all seven ids are configured, and otherwise stops at the first unknown one in level order |
| Orchestrator.FullAnalysisShape | agent_orchestrator.py:180-189 | a completed run holds the four analysts' entries, the two managers' entries carrying that Level-1 map, and PM_001 carrying both maps; every entry is pending with no result |
| Orchestrator.DefaultRosterCompletes | agent_orchestrator.py:162-201 | with the default roster every level completes |
| Spawner.SpawnAgent | agent_spawner.py:32-55 | the spawn equals the specification function of `spawn_agent` |
| Spawner.SpawnExactly | agent_spawner.py:32-91 | an unknown id gives exactly the error naming it; a known one is spawned under its id, name and the stock, with a prompt that starts with the agent's template |
| Spawner.RunLevel1Parallel | agent_spawner.py:93-110 | the four analysts spawned in order, one record each |
| Spawner.SummaryOf | agent_spawner.py:126-135 | one summary entry per Level-1 record in order; no summary (a KeyError) exactly when some record is an error record without `agent_name` |
| Spawner.RunLevel2Parallel | agent_spawner.py:112-144 | the two managers spawned in order, each carrying the Level-1 summary as context; nothing when the summary raises |
| Spawner.RunLevel3Final | agent_spawner.py:146-163 | PM_001 spawned with the Level-1 and Level-2 record counts as inputs |
| Spawner.RunFullPipeline | agent_spawner.py:165-227 | the three levels in order, each given the earlier records, with the total agent count; built exactly when every analyst is known |
| Spawner.DefaultRosterSpawns | agent_spawner.py:32-55 | with the default roster every analyst spawns and the pipeline is built; an unknown id gives the not-found error |
| Spawner.BatchConfigShape | agent_spawner.py:229-251 | the batch configuration counts its stocks, runs them one at a time, and lists levels 1, 2, 3 with 4, 2, 1 agents, only the last sequential |
| MarketData.Sub | update_data.py:104 | the difference is finite exactly when both operands are, and then adds back to the minuend |
| MarketData.Percent | update_data.py:105 | the percentage is finite exactly when both operands are and the divisor is non-zero, and then times the divisor equals 100 times the dividend |
| MarketData.TrendOf | update_data.py:81-87 | BULLISH exactly when close > MA20 > MA60, BEARISH exactly when close < MA20 < MA60, NEUTRAL whenever a value is NaN |
| MarketData.TrendNamesDistinct | update_data.py:83-87 | the three trend names are pairwise distinct |
| MarketData.FloatJson | update_data.py:141-146 | a float is written as a JSON number, or as NaN for a NaN float |
| MarketData.Get | kstock_data.py:45-51 | `d.get(key, default)`: the stored value when the key is present, the default otherwise |
| MarketData.AsNumber | kstock_data.py:60-62 | a decoded value takes part in a numeric comparison exactly when it is a number or a boolean |
| MarketData.PyGt | kstock_data.py:60 | `j > t` raises TypeError exactly when `j` is not a number; otherwise it is the comparison of its value |
| MarketData.PyLt | kstock_data.py:62 | `j < t` raises TypeError exactly when `j` is not a number; otherwise it is the comparison of its value |
| MarketSignals.GetOr | analysis/technical.py:77-97 | `row.get(column, default)`: the default when the column is absent, the cell otherwise |
| MarketSignals.TrendSignal | analysis/technical.py:76-82 | BULLISH exactly when close > MA20 > MA60 with missing averages read as 0; BEARISH exactly when not bullish and close < MA20 < MA60 with a missing MA20 read as 999999999 and a missing MA60 as 0 |
| MarketSignals.RsiSignalOf | analysis/technical.py:84-91 | OVERBOUGHT exactly above 70, OVERSOLD exactly below 30, a missing RSI read as 50 and so NEUTRAL |
| MarketSignals.MacdSignalOf | analysis/technical.py:93-104 | GOLDEN_CROSS exactly when MACD rises above its signal line between the two rows, DEAD_CROSS exactly when it falls below |
| MarketSignals.Vote | analysis/technical.py:106-113 | the score is the bullish readings less the bearish ones and lies in [-3, 3] |
| MarketSignals.Overall | analysis/technical.py:115-120 | BUY exactly from 2, SELL exactly from -2 down, HOLD in between |
| MarketSignals.GenerateSignals | analysis/technical.py:70-122 | an empty frame raises IndexError, and only it; otherwise the three readings of the last row (the cross against the row before, or itself for a one-row frame) and the overall verdict of their vote |
| MarketSignals.TrendSignalIsTrendRule | analysis/technical.py:76-82 | with both averages present the trend is the shared trend rule |
| MarketSignals.NoAveragesNeutral | analysis/technical.py:77-79 | without moving-average columns the trend is always NEUTRAL |
| MarketSignals.MissingMa60NeverBearish | analysis/technical.py:79 | with MA60 missing and a non-negative MA20 the trend is never BEARISH |
| MarketSignals.CrossesExclusive | analysis/technical.py:99-102 | the golden and dead crosses exclude each other |
| MarketSignals.SingleRowNoCross | analysis/technical.py:73 | a one-row frame never shows a cross |
| MarketSignals.ReadingsDisjoint | analysis/technical.py:108-113 | the bullish and bearish counts are non-negative and add up to at most three |
| MarketSignals.BuyMeansTwoUpNoneDown | analysis/technical.py:106-120 | BUY exactly when at least two readings are bullish and none bearish; SELL mirrors it |
| MarketSignals.ExtremeVotes | analysis/technical.py:106-113 | the score is 3 exactly when all three readings are bullish, -3 exactly when all are bearish |
| UpdateData.AlertOf | update_data.py:89-99 | each of the four alerts exactly on its RSI band, first match from the top; no alert exactly for an RSI in [30, 70] or NaN |
| UpdateData.Trunc | update_data.py:106 | `int(x)`: truncation toward zero, within one of the value on the side of zero |
| UpdateData.AnalyzeKospi | update_data.py:58-112 | `{}` exactly for a missing or empty frame; IndexError exactly for one row; ValueError exactly for a NaN last volume; otherwise the recorded date, the last close, its change against the row before, the percentage (finite exactly when the change is finite and the previous close non-zero, and then change / previous × 100), the truncated volume, the MA20 and MA60 read-outs, the trend rule and the RSI alert |
| UpdateData.AlertJson | update_data.py:147 | no alert is written as null, and only no alert is |
| UpdateData.UpdateIndex | update_data.py:122-148 | the index written equals the merge of the loaded file, the timestamp and the analysis |
| UpdateData.MergeFailsOnlyOnNonObjects | update_data.py:126-137 | the merge raises exactly when the loaded file is not an object or holds a non-object `indices`; a missing file always merges |
| UpdateData.MergeKeepsOtherKeys | update_data.py:132-137 | a merge keeps every key of the file, adds at most `last_updated` and `indices`, sets the timestamp and changes no other value |
| UpdateData.MergeReplacesOnlyKospi | update_data.py:134-148 | under `indices` the merge sets `kospi` to the analysis's entry and keeps every other index |
| UpdateData.MergeIdempotent | update_data.py:122-148 | merging the same analysis and timestamp into a merged index changes nothing |
| UpdateData.ShortHistoryQuiet | update_data.py:81-99 | with a NaN RSI and a NaN MA60 the analysis has no alert and a NEUTRAL trend |
| UpdateData.AlertSeverityMonotone | update_data.py:90-99 | over finite readings the alert ladder is monotone in the RSI: oversold (20-) < oversold (30-) < no alert < overbought (70+) < overbought (80+) |
| KStockData.LoadIndex | kstock_data.py:22-28 | the decoded index, or `{}` when the file cannot be read |
| KStockData.KospiSummary | kstock_data.py:43-52 | the five fields of `indices.kospi`, null when absent; `{}` gives all nulls; AttributeError only when a level is not an object |
| KStockData.SignalRule | kstock_data.py:60-67 | CAUTION exactly for RSI above 80 with BULLISH, OPPORTUNITY exactly for RSI below 30 with BEARISH, HOLD exactly for any other BULLISH, NEUTRAL otherwise |
| KStockData.OrDefault | kstock_data.py:57-58 | a null value reads as the default, any other value as itself |
| KStockData.KospiSignalAsWritten | kstock_data.py:54-67 | as written, a malformed index raises AttributeError, a summary RSI that is not a number (None included) raises TypeError, and otherwise CAUTION exactly for an RSI above 80 in a BULLISH trend |
| KStockData.KospiSignal | kstock_data.py:54-67 | with a null RSI read as 50 and a null trend as NEUTRAL, the signal raises only AttributeError or a TypeError for a non-number RSI |
| KStockData.IsBullish | kstock_data.py:108-113 | false for any symbol but 'kospi'; for it, true exactly when the stored trend is BULLISH |
| KStockData.IsOverboughtAsWritten | kstock_data.py:115-121 | false for any symbol but 'kospi'; as written a null RSI raises TypeError |
| KStockData.IsOverbought | kstock_data.py:115-121 | false for any symbol but 'kospi'; for 'kospi', AttributeError on a malformed index, otherwise defined exactly for a null or numeric RSI, and true exactly for a numeric RSI above 70 |
| KStockData.MarketStatusAsWritten | kstock_data.py:123-134 | as written, a malformed index raises AttributeError; otherwise the line formats exactly when the price and the change are numbers, so a missing one raises; a formatted line has two or three segments, the trend second |
| KStockData.MarketStatus | kstock_data.py:123-134 | with the intended defaults the line formats exactly when the price and change are null or numbers; a null price and change show as 0, numeric ones as themselves; the trend, or NEUTRAL when null, comes second; the alert is the third segment exactly when truthy |
| KStockData.FormatNumber | kstock_data.py:131 | `,.0f` / `+.2f` format exactly the numbers, and raise otherwise |
| KStockData.StatusSegments | kstock_data.py:131-134 | the line is formed exactly when price and change are numbers; it has the alert segment exactly when the alert is truthy |
| KStockData.StockFileAsWritten | kstock_data.py:85-94 | as written, only samsung.csv or skhynix.csv; a name lowering to 'samsung' or '삼성전자' finds samsung.csv and one lowering to 'skhynix' finds skhynix.csv |
| KStockData.StockFile | kstock_data.py:83-94 | the corrected lookup (see Findings): only samsung.csv or skhynix.csv; a name lowering to 'samsung' or '삼성전자' finds samsung.csv, and one lowering to 'skhynix' or 'sk하이닉스' (so 'SK하이닉스' too) finds skhynix.csv |
| KStockData.Stock | kstock_data.py:83-105 | with the corrected lookup (see Findings), None for an unknown name; otherwise whatever reading that file gives |
| KStockData.Loader.constructor | kstock_data.py:17-20 | the loader holds the loaded index and no cached history |
| KStockData.Loader.Kospi | kstock_data.py:31-41 | the file is read only when nothing is cached (a missing file raises), a loaded cache is kept, the last `days` rows are served, and the index and KOSDAQ cache are untouched |
| KStockData.Loader.Kosdaq | kstock_data.py:70-80 | the same lifecycle over the KOSDAQ history |
| KStockData.Loader.Refresh | kstock_data.py:136-140 | the index is reloaded and both caches emptied |
| KStockData.MissingIndexRaisesAsWritten | kstock_data.py:54-67 | with no index file, the signal, the overbought test and the status line as written raise TypeError, while the corrected ones give NEUTRAL, false and the zero headline with NEUTRAL |
| KStockData.SignalCorrectionAgrees | kstock_data.py:54-67 | where the index holds a number for the RSI, the corrected and as-written signals agree and succeed |
| KStockData.OverboughtCorrectionAgrees | kstock_data.py:115-121 | wherever the RSI is a number, the corrected and as-written overbought tests agree and neither raises |
| KStockData.StatusCorrectionAgrees | kstock_data.py:123-134 | wherever the price and change are numbers and the trend is set, the corrected and as-written status lines agree and both format |
| KStockData.SignalTotalOnWellFormedIndex | kstock_data.py:54-67 | the corrected signal never raises on an index whose RSI is a number or absent |
| KStockData.SignalNeedsExtremeRsi | kstock_data.py:60-67 | CAUTION and OPPORTUNITY need an extreme RSI; any other BULLISH index reads HOLD |
| KStockData.AlertSegmentIffAlert | kstock_data.py:129-133 | the status line has the alert segment exactly when the alert is non-empty |
| KStockData.MixedCaseKeyUnreachable | kstock_data.py:89-92 | no name lowers to the mixed-case key 'SK하이닉스' |
| KStockData.KoreanSkHynixLookup | kstock_data.py:85-94 | as written 'SK하이닉스' finds no file; the corrected lookup finds skhynix.csv |
| KStockData.StockLookupCorrectionAgrees | kstock_data.py:85-94 | the two lookups differ only on names that lower to 'sk하이닉스' |
| KStockData.WrittenIndexSummary | kstock_data.py:43-52 | an index written by the KOSPI update reads back with its price, change, trend name, RSI and alert |
| KStockData.WrittenIndexSignals | kstock_data.py:54-121 | on such an index nothing raises, the two signals agree, and the bullish test and signal follow the analysis's trend and RSI |
| KStockData.AnalysisSummarySignals | kstock_data.py:54-121 | for any index whose KOSPI entry holds an analysis's fields, the bullish test, both signals, the overbought test and the status line follow that analysis, and the status has an alert segment exactly when the analysis raised an alert |

## Left out

- Downloads (yfinance, FinanceDataReader, news feeds), file reads and writes, JSON and CSV encoding, printing and HTML rendering are I/O. Their results come in as parameters: histories, info dicts, decoded files, per-stock agent outcomes. What is written goes out as a returned value.
- Indicator arithmetic (moving averages, RSI, MACD, Bollinger bands, OBV, rolling windows, percentage changes of prices) is pandas column math. Its values are inputs: the last-row cells the scorers read. Only divisions that the source itself guards are modelled.
- Python `round(x, n)` and number formatting are not modelled. Averages and percentages are exact reals.
- Floating point is modelled as reals with a NaN case where the source can meet NaN: the `info` entries of the qualitative agent, the index values of the data loader, the market-signal rows and the index-update histories. Minervini's and the KOSDAQ scanner's earlier 50-day average, NaN below 59 rows, is modelled by the row count it needs. Elsewhere prices and indicators are exact reals, so a NaN indicator cell there is not modelled. An infinite value from an unguarded division by zero is treated as NaN.
- The order of JSON keys and the order of Python dict iteration over the configured levels are not modelled. Levels are a sequence in configuration order.
- `str.lower()` is modelled on ASCII letters only. Other characters are kept unchanged, including Hangul, which has no case.
- Timestamps, `datetime.now()`, `time.sleep` pauses and generated run ids are parameters or left out.
- The language-model sessions that Level 2 and Level 3 prompts are meant for are not run by the source either. Only the prepared records are modelled.
- The command-line `main` functions and argument parsing are left out. The runners' entry functions take their counts as parameters.
- The KOSDAQ fallback list in daily_level1_fdr.py tags its symbols with the suffix .KS. It is modelled as written, with no corrected variant.
- QuantAgent, TechnicalAgent and NewsAgent rung functions (every `*Rung` and `*Raw` helper): each contract states the score bound and, for some, when the rung records a risk. The matching `*Bands` lemmas state each ladder's set of values and, for most ladders, the exact condition of the top or bottom value and of the risk. The thresholds that separate the middle values are not stated for these three agents.
- QualitativeAgent, Livermore, Oneil, Minervini and Kosdaq rung functions (every `*Rung` helper, `RiskDeductions`, `ContractionBands`, `ConfirmingBands`, `CoreBands`, `PriceVolumeBands`, `ShapeBands`, `SetupBands`): each contract states the score bound. Every value of every ladder is stated as a first-match condition by the lemmas in the table: `BusinessModelBands`, `DiversificationBands`, `ManagementBands`, `GovernanceBands`, `IndustryOutlookBands`, `SectorAndTechnologyBands` and `RiskRungValues`; `BreakoutBands` and `ShapeBandValues`; `OneilBands` and `ConfirmingRungValues`; `VolatilityBandStage` and `SetupRungValues`; `LivermoreBandValues`, `OneilBandValues` and `MinerviniBandValues`. The `BandsAreLadders` lemmas, `OneilBandsAreLadders` and the KOSDAQ value lemmas state that each scanner's score is the sum of its ladders.
- QuantAgent.ProfitabilityVerdict, QuantAgent.GrowthVerdict, QuantAgent.StabilityVerdict, QuantAgent.ValuationVerdict, QualitativeAgent.BusinessModelVerdict, QualitativeAgent.ManagementVerdict, QualitativeAgent.IndustryOutlookVerdict, QualitativeAgent.RiskFactorsVerdict: the contracts state the [0, 25] bound. The per-ladder values are in the matching `*Bands` lemmas, and the clamps are in the `*NeverClamped` lemmas.
- KStockData.KospiSignal: the contract states only which exceptions it can raise. Its values are tied to the as-written signal by `SignalCorrectionAgrees` and `SignalNeedsExtremeRsi`.
- KStockData.Loader.Kospi and KStockData.Loader.Kosdaq: the CSV parsing (skipped header rows, column renaming, date index, numeric coercion) is not modelled. The parsed rows come in as a parameter.
- QualitativeAgent.QualInfo: only the numeric entries may hold None. A None `sector` or `industry` is not modelled; in the source, lowering a None industry would raise AttributeError.
- TechnicalAgent.TechnicalReport and TechnicalAgent.TechnicalAnalysisAgent.Analyze: the `current_price` and `current_indicators` fields (the last row's close, RSI, MACD, Bollinger position and volume ratio, copied as floats) are not modelled. They are read-outs of indicator columns, which are inputs here.
- NewsAgent.PriceFine: the momentum and trend verdicts require every close to be positive. A zero close, where the source's percentage change divides by zero, is not modelled.
- Level1All.RunAllLevel1Agents: it takes the four agents' finished results. An agent that raises (the qualitative agent on a None entry, the news agent on a short history) ends the source's run with no result at all; the model does not represent that run.
- NewsAgent.NewsReport, NewsAgent.EventRiskOf, NewsAgent.TallyHeadline, NewsAgent.CountEventMentions, NewsAgent.NewsSentimentAgent.AnalyzeEventRisk and NewsAgent.NewsSentimentAgent.Analyze: these model the corrected program, with lower-case event keywords and a 20-day guard. The source as written is covered by `EventKeywordsAsWritten`, `MomentumAsWritten` and `SentimentTrendAsWritten` and the agreement lemmas in the Findings.
- Oneil.ResultOf, Oneil.VolumePattern, Oneil.Scanner.Scan and Oneil.ScanShape: these use the corrected pattern classification. They agree with the source except on a price change of 10% or more, where `ClassifyPatternAsWritten` gives the source's pattern.
- KStockData.StockFile and KStockData.Stock: these use the corrected lookup. They agree with the source (`StockFileAsWritten`) on every name except those lowering to 'sk하이닉스'.
- KStockData.KospiSignal, KStockData.IsOverbought and KStockData.MarketStatus: these apply the defaults the source evidently intends. The source's behaviour is `KospiSignalAsWritten`, `IsOverboughtAsWritten` and `MarketStatusAsWritten`.

## Findings

| source | as written | input that shows it | evidently intended | confidence | as-written member | corrected member |
|---|---|---|---|---|---|---|
| agents/news_agent.py:178-193 | the event keywords 'EPS' and 'CEO' are searched for in a lowered headline | the headline "EPS" records no earnings event | the keywords match regardless of case | not executed | NewsAgent.EventKeywordsAsWritten, NewsAgent.UpperEventKeywordsNeverMatch, NewsAgent.EpsHeadlineMissedAsWritten | NewsAgent.EventKeywords, NewsAgent.LoweredKeywordsCatchUpperCase |
| oneil_scanner.py:226-236 | a price change of 10% or more falls into its own branch, which does not include the 5% surge label | a 12% rise on 3.5 times the average volume at a 50-day high is classed VOLUME_INCREASE | a surge of 10% also counts as one of 5%, giving STRONG_BREAKOUT | not executed | Oneil.ClassifyPatternAsWritten, Oneil.TenPercentSurgeMisclassified | Oneil.ClassifyPattern, Oneil.StrongBreakoutExactly |
| kstock_data.py:85-94 | the map key 'SK하이닉스' is compared with `name.lower()` | `stock('SK하이닉스')` returns None | the Korean SK Hynix name finds skhynix.csv | not executed | KStockData.StockFileAsWritten, KStockData.MixedCaseKeyUnreachable | KStockData.StockFile, KStockData.KoreanSkHynixLookup, KStockData.StockLookupCorrectionAgrees |
| kstock_data.py:54-67, 115-121, 123-134 | `summary.get('rsi', 50)` reads a dict that always holds the key, so the default never applies | with no index file, `kospi_signal()` compares None > 80 and raises TypeError | a missing RSI reads as 50, a missing trend as NEUTRAL | not executed | KStockData.KospiSignalAsWritten, KStockData.IsOverboughtAsWritten, KStockData.MarketStatusAsWritten, KStockData.MissingIndexRaisesAsWritten | KStockData.KospiSignal, KStockData.IsOverbought, KStockData.MarketStatus, KStockData.SignalCorrectionAgrees, KStockData.OverboughtCorrectionAgrees, KStockData.StatusCorrectionAgrees |
| agents/news_agent.py:246-251, 305-309 | the short-history guard is `len < 10`, but the code then reads `iloc[-20]` | a 15-day history raises IndexError | the guard requires 20 days | not executed | NewsAgent.MomentumAsWritten, NewsAgent.MomentumAsWrittenRaisesOnShortHistory, NewsAgent.SentimentTrendAsWritten, NewsAgent.TrendAsWrittenRaisesOnShortHistory | NewsAgent.MomentumVerdict, NewsAgent.SentimentTrend, NewsAgent.MomentumCorrectedAgrees, NewsAgent.TrendCorrectedAgrees |
