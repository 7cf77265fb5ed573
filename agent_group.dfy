// investment_agent_group.py: the three-level agent roster (four Level-1
// analysts, two Level-2 managers, one Level-3 portfolio manager), agent
// lookup, the level-key mapping, the agent listing and the per-stock
// analysis request with its level dependencies.
module AgentGroup {
  import opened Common

  /** One configured agent; `promptTemplate` is the agent's LLM prompt text. */
  datatype Agent = Agent(id: string, name: string, role: string, specialty: string,
                         level: int, weight: real, status: string, promptTemplate: string)

  /** One entry of `config['levels']`, under its dict key. */
  datatype Level = Level(key: string, description: string, agents: seq<Agent>)

  /** The configuration: the group name and the levels in dict order. */
  datatype GroupConfig = GroupConfig(groupName: string, levels: seq<Level>)

  /** Every configured agent, level by level, in configuration order. */
  function AllAgents(levels: seq<Level>): seq<Agent>
  {
    if levels == [] then [] else AllAgents(levels[..|levels| - 1]) + levels[|levels| - 1].agents
  }

  /** The first agent with the given id, or None. */
  function FirstWithId(agents: seq<Agent>, id: string): Option<Agent>
  {
    if agents == [] then None
    else if agents[0].id == id then Some(agents[0])
    else FirstWithId(agents[1..], id)
  }

  /** What `get_agent` looks up: the first matching agent, scanning the levels in order. */
  function FindAgent(levels: seq<Level>, id: string): Option<Agent>
  {
    FirstWithId(AllAgents(levels), id)
  }

  /** A lookup finds the first agent carrying the id, and finds nothing only when no agent carries it. */
  lemma {:induction false} FirstWithIdExactly(agents: seq<Agent>, id: string)
    ensures FirstWithId(agents, id).None? <==> forall k :: 0 <= k < |agents| ==> agents[k].id != id
    ensures FirstWithId(agents, id).Some? ==>
              exists k :: 0 <= k < |agents| && agents[k] == FirstWithId(agents, id).value
                          && agents[k].id == id && forall j :: 0 <= j < k ==> agents[j].id != id
  {
    if agents != [] && agents[0].id != id {
      FirstWithIdExactly(agents[1..], id);
      if FirstWithId(agents, id).Some? {
        var k :| 0 <= k < |agents[1..]| && agents[1..][k] == FirstWithId(agents, id).value
                 && agents[1..][k].id == id && forall j :: 0 <= j < k ==> agents[1..][j].id != id;
        assert agents[k + 1] == agents[1..][k];
        forall j | 0 <= j < k + 1 ensures agents[j].id != id {
          if j > 0 {
            assert agents[j] == agents[1..][j - 1];
          }
        }
      } else {
        forall k | 0 <= k < |agents| ensures agents[k].id != id {
          if k > 0 {
            assert agents[k] == agents[1..][k - 1];
          }
        }
      }
    }
  }

  /** Searching a concatenation searches the first part, then the second. */
  lemma {:induction false} FirstWithIdAppend(a: seq<Agent>, b: seq<Agent>, id: string)
    ensures FirstWithId(a + b, id) == if FirstWithId(a, id).Some? then FirstWithId(a, id) else FirstWithId(b, id)
  {
    if a != [] {
      assert (a + b)[1..] == a[1..] + b;
      FirstWithIdAppend(a[1..], b, id);
    } else {
      assert a + b == b;
    }
  }

  /** `get_agent`: the nested scan over levels and their agents, returning at the first match; None is `{}`. */
  method GetAgent(config: GroupConfig, id: string) returns (agent: Option<Agent>)
    ensures agent == FindAgent(config.levels, id)
  {
    var levels := config.levels;
    var i := 0;
    while i < |levels|
      invariant 0 <= i <= |levels|
      invariant FirstWithId(AllAgents(levels[..i]), id) == None
    {
      assert levels[..i + 1][..i] == levels[..i];
      var agents := levels[i].agents;
      var j := 0;
      while j < |agents|
        invariant 0 <= j <= |agents|
        invariant FirstWithId(agents[..j], id) == None
      {
        FirstWithIdAppend(agents[..j], [agents[j]], id);
        assert agents[..j + 1] == agents[..j] + [agents[j]];
        if agents[j].id == id {
          FirstWithIdAppend(AllAgents(levels[..i]), agents, id);
          FirstWithIdAppend(agents[..j + 1], agents[j + 1..], id);
          assert agents == agents[..j + 1] + agents[j + 1..];
          AllAgentsPrefix(levels, i);
          FirstWithIdAppend(AllAgents(levels[..i + 1]), AllAgents(levels[i + 1..]), id);
          return Some(agents[j]);
        }
        j := j + 1;
      }
      assert agents[..j] == agents;
      FirstWithIdAppend(AllAgents(levels[..i]), agents, id);
      i := i + 1;
    }
    assert levels[..i] == levels;
    agent := None;
  }

  /** The agents of the first i + 1 levels, and the whole roster as those plus the rest. */
  lemma AllAgentsPrefix(levels: seq<Level>, i: nat)
    requires i < |levels|
    ensures AllAgents(levels[..i + 1]) == AllAgents(levels[..i]) + levels[i].agents
    ensures AllAgents(levels) == AllAgents(levels[..i + 1]) + AllAgents(levels[i + 1..])
  {
    assert levels[..i + 1][..i] == levels[..i];
    AllAgentsSplit(levels, i + 1);
  }

  lemma {:induction false} AllAgentsSplit(levels: seq<Level>, n: nat)
    requires n <= |levels|
    ensures AllAgents(levels) == AllAgents(levels[..n]) + AllAgents(levels[n..])
  {
    if n < |levels| {
      var init := levels[..|levels| - 1];
      AllAgentsSplit(init, n);
      assert init[..n] == levels[..n];
      assert levels[n..][..|levels[n..]| - 1] == init[n..];
      assert AllAgents(levels[n..]) == AllAgents(init[n..]) + levels[|levels| - 1].agents;
    } else {
      assert levels[..n] == levels;
      assert levels[n..] == [];
    }
  }

  /** The decimal digits of a natural number. */
  function Digits(n: nat): (s: string)
    ensures |s| >= 1 && (n >= 10 ==> |s| >= 2) && '0' <= s[0] <= '9'
  {
    if n < 10 then [DigitChar(n)] else Digits(n / 10) + [DigitChar(n % 10)]
  }

  function DigitChar(d: nat): char
    requires d < 10
  {
    ['0', '1', '2', '3', '4', '5', '6', '7', '8', '9'][d]
  }

  /** `f'{n}'` for an int. */
  function IntText(n: int): string
  {
    if n < 0 then "-" + Digits(-n) else Digits(n)
  }

  /** The text of n is "3" only for n = 3. */
  lemma IntTextThree(n: int)
    requires IntText(n) == "3"
    ensures n == 3
  {
    if 0 <= n < 10 {
      assert Digits(n) == [DigitChar(n)];
    }
  }

  function LevelSuffix(level: int): string
  {
    if level == 1 then "analysts" else if level == 2 then "managers" else "pm"
  }

  /** `f'level_{level}_{...}'`: analysts for 1, managers for 2, pm for any other level. */
  function LevelKey(level: int): string
  {
    "level_" + IntText(level) + "_" + LevelSuffix(level)
  }

  /** The agents under a level key (`.get(level_key, {}).get('agents', [])`). */
  function AgentsUnder(levels: seq<Level>, key: string): (agents: seq<Agent>)
    ensures agents == [] || exists k :: 0 <= k < |levels| && levels[k].key == key && levels[k].agents == agents
  {
    if levels == [] then []
    else if levels[0].key == key then levels[0].agents
    else AgentsUnder(levels[1..], key)
  }

  /** `get_level_agents`. */
  function LevelAgents(config: GroupConfig, level: int): seq<Agent>
  {
    AgentsUnder(config.levels, LevelKey(level))
  }

  /** A level key is "level_", the level's text, "_" and the level's suffix, at these positions. */
  lemma KeySplit(level: int, key: string)
    requires LevelKey(level) == key
    ensures |key| == 7 + |IntText(level)| + |LevelSuffix(level)|
    ensures key[6..6 + |IntText(level)|] == IntText(level)
    ensures key[|key| - |LevelSuffix(level)|..] == LevelSuffix(level)
  {
    var t := IntText(level);
    var s := LevelSuffix(level);
    assert key == "level_" + t + "_" + s;
    assert key[6..6 + |t|] == t;
    assert key[|key| - |s|..] == s;
  }

  /** The keys of levels 1, 2 and 3. */
  lemma KeysOfLevels()
    ensures LevelKey(1) == "level_1_analysts"
    ensures LevelKey(2) == "level_2_managers"
    ensures LevelKey(3) == "level_3_pm"
  {
    assert IntText(1) == "1" && IntText(2) == "2" && IntText(3) == "3";
  }

  /** The suffix of a level key can be read off its last and eighth-to-last characters. */
  lemma SuffixFromKey(level: int, key: string)
    requires LevelKey(level) == key
    ensures |key| >= 10
    ensures LevelSuffix(level)
         == if key[|key| - 1] == 'm' then "pm" else if key[|key| - 8] == 'a' then "analysts" else "managers"
  {
    KeySplit(level, key);
    var x := LevelSuffix(level);
    assert key[|key| - 1] == x[|x| - 1];
    assert |x| == 8 ==> key[|key| - 8] == x[0];
  }

  /** Only level 1 maps to the analysts' key. */
  lemma LevelKeyOne(level: int)
    ensures LevelKey(1) == "level_1_analysts"
    ensures LevelKey(level) == "level_1_analysts" <==> level == 1
  {
    KeysOfLevels();
    if LevelKey(level) == "level_1_analysts" {
      SuffixFromKey(level, "level_1_analysts");
    }
  }

  /** Only level 2 maps to the managers' key. */
  lemma LevelKeyTwo(level: int)
    ensures LevelKey(2) == "level_2_managers"
    ensures LevelKey(level) == "level_2_managers" <==> level == 2
  {
    KeysOfLevels();
    if LevelKey(level) == "level_2_managers" {
      SuffixFromKey(level, "level_2_managers");
    }
  }

  /** Only level 3 maps to the portfolio manager's key. */
  lemma LevelKeyThree(level: int)
    ensures LevelKey(3) == "level_3_pm"
    ensures LevelKey(level) == "level_3_pm" <==> level == 3
  {
    KeysOfLevels();
    if LevelKey(level) == "level_3_pm" {
      KeySplit(level, "level_3_pm");
      if LevelSuffix(level) == "pm" {
        assert IntText(level) == "level_3_pm"[6..7];
        IntTextThree(level);
      }
    }
  }

  /** One row of `list_all_agents`. */
  datatype AgentListing = AgentListing(id: string, name: string, role: string, level: int, status: string)

  function Listing(a: Agent): AgentListing
  {
    AgentListing(a.id, a.name, a.role, a.level, a.status)
  }

  /** The projection of each agent, in order. */
  function Listings(agents: seq<Agent>): (rows: seq<AgentListing>)
    ensures |rows| == |agents| && forall k :: 0 <= k < |agents| ==> rows[k] == Listing(agents[k])
  {
    seq(|agents|, k requires 0 <= k < |agents| => Listing(agents[k]))
  }

  /** `list_all_agents`: one projection per configured agent, in configuration order. */
  method ListAllAgents(config: GroupConfig) returns (all: seq<AgentListing>)
    ensures all == Listings(AllAgents(config.levels))
  {
    var levels := config.levels;
    all := [];
    var i := 0;
    while i < |levels|
      invariant 0 <= i <= |levels|
      invariant all == Listings(AllAgents(levels[..i]))
    {
      assert levels[..i + 1][..i] == levels[..i];
      var agents := levels[i].agents;
      var j := 0;
      while j < |agents|
        invariant 0 <= j <= |agents|
        invariant all == Listings(AllAgents(levels[..i]) + agents[..j])
      {
        assert AllAgents(levels[..i]) + agents[..j + 1] == (AllAgents(levels[..i]) + agents[..j]) + [agents[j]];
        all := all + [Listing(agents[j])];
        j := j + 1;
      }
      assert agents[..j] == agents;
      i := i + 1;
    }
    assert levels[..i] == levels;
  }

  /** One step of the analysis workflow; `dependsOn` is None where the step has no `depends_on` key. */
  datatype WorkflowStep = WorkflowStep(level: int, agents: seq<string>, parallel: bool, dependsOn: Option<seq<int>>)

  datatype AnalysisRequest = AnalysisRequest(symbol: string, name: string, workflow: seq<WorkflowStep>)

  const LevelOneIds: seq<string> := ["TECH_001", "QUANT_001", "QUAL_001", "NEWS_001"]
  const LevelTwoIds: seq<string> := ["SECTOR_001", "MACRO_001"]
  const LevelThreeIds: seq<string> := ["PM_001"]

  /** `generate_analysis_request` without its timestamp and request id. */
  function GenerateAnalysisRequest(symbol: string, name: string): AnalysisRequest
  {
    AnalysisRequest(symbol, name, [
      WorkflowStep(1, LevelOneIds, true, None),
      WorkflowStep(2, LevelTwoIds, true, Some([1])),
      WorkflowStep(3, LevelThreeIds, false, Some([1, 2]))
    ])
  }

  /** The levels 1 .. n. */
  function UpTo(n: nat): (s: seq<int>)
    ensures |s| == n && forall k :: 0 <= k < n ==> s[k] == k + 1
  {
    if n == 0 then [] else UpTo(n - 1) + [n]
  }

  /**
   * The request's steps are levels 1, 2, 3 in order; each step after the
   * first depends on exactly the levels before it; only the last is sequential.
   */
  lemma RequestDependencies(symbol: string, name: string)
    ensures var w := GenerateAnalysisRequest(symbol, name).workflow;
            |w| == 3
            && (forall k :: 0 <= k < 3 ==> w[k].level == k + 1)
            && w[0].dependsOn == None
            && (forall k :: 1 <= k < 3 ==> w[k].dependsOn == Some(UpTo(k)))
            && (forall k :: 0 <= k < 3 ==> (w[k].parallel <==> k < 2))
  {
    assert UpTo(1) == [1];
    assert UpTo(2) == [1, 2];
  }

  function Ids(agents: seq<Agent>): (ids: seq<string>)
    ensures |ids| == |agents| && forall k :: 0 <= k < |agents| ==> ids[k] == agents[k].id
  {
    seq(|agents|, k requires 0 <= k < |agents| => agents[k].id)
  }

  function Weights(agents: seq<Agent>): (ws: seq<real>)
    ensures |ws| == |agents| && forall k :: 0 <= k < |agents| ==> ws[k] == agents[k].weight
  {
    seq(|agents|, k requires 0 <= k < |agents| => agents[k].weight)
  }

  /** The seven prompt texts of the default roster. */
  datatype Prompts = Prompts(tech: string, quant: string, qual: string, news: string,
                             sector: string, macro: string, pm: string)

  /** The four Level-1 analysts of the default roster. */
  function DefaultAnalysts(p: Prompts): seq<Agent>
  {
    [Agent("TECH_001", "Technical Analyst", "기술적 분석가", "가격, 모멘텀, 볼린저 밴드, 거래량", 1, 0.25, "active", p.tech),
     Agent("QUANT_001", "Quant Analyst", "정량적 분석가", "재무 지표 및 성장률", 1, 0.25, "active", p.quant),
     Agent("QUAL_001", "Qualitative Analyst", "정성적 분석가", "기업 보고서 리스크 및 비즈니스 모델", 1, 0.25, "active", p.qual),
     Agent("NEWS_001", "News Sentiment Analyst", "뉴스 센티먼트 분석가", "호재/악재 뉴스 및 감성 분석", 1, 0.25, "active", p.news)]
  }

  /** The two Level-2 managers of the default roster. */
  function DefaultManagers(p: Prompts): seq<Agent>
  {
    [Agent("SECTOR_001", "Sector Analyst", "섹터 분석가", "동종 업계 평균 비교 및 섹터 로테이션", 2, 0.5, "active", p.sector),
     Agent("MACRO_001", "Macro Analyst", "매크로 분석가", "금리, 환율, VIX 등 거시경제 분석", 2, 0.5, "active", p.macro)]
  }

  /** The Level-3 portfolio manager of the default roster. */
  function DefaultPm(p: Prompts): seq<Agent>
  {
    [Agent("PM_001", "Portfolio Manager", "포트폴리오 매니저", "최종 Long-Short 포트폴리오 구성", 3, 1.0, "active", p.pm)]
  }

  /** The configuration `_load_or_create_config` writes when no configuration file exists. */
  function DefaultConfig(p: Prompts): GroupConfig
  {
    GroupConfig("KStock Investment Alpha Team", [
      Level("level_1_analysts", "정보 수집 및 스코어링 (0-100점)", DefaultAnalysts(p)),
      Level("level_2_managers", "섹터 및 매크로 조정", DefaultManagers(p)),
      Level("level_3_pm", "최종 포트폴리오 결정", DefaultPm(p))
    ])
  }

  /** The configuration in use: the stored file when there is one, else the default roster. */
  function LoadOrCreate(stored: Option<GroupConfig>, p: Prompts): (config: GroupConfig)
    ensures stored.Some? ==> config == stored.value
    ensures stored.None? ==> config == DefaultConfig(p)
  {
    if stored.Some? then stored.value else DefaultConfig(p)
  }

  /**
   * The default roster: levels 1, 2 and 3 hold 4, 2 and 1 agents whose
   * `level` field is their level and whose weights add up to 1; every
   * status is 'active'.
   */
  lemma DefaultRosterShape(p: Prompts)
    ensures |DefaultAnalysts(p)| == 4 && |DefaultManagers(p)| == 2 && |DefaultPm(p)| == 1
    ensures forall a :: a in DefaultAnalysts(p) ==> a.level == 1 && a.status == "active"
    ensures forall a :: a in DefaultManagers(p) ==> a.level == 2 && a.status == "active"
    ensures forall a :: a in DefaultPm(p) ==> a.level == 3 && a.status == "active"
    ensures SumReal(Weights(DefaultAnalysts(p))) == 1.0
    ensures SumReal(Weights(DefaultManagers(p))) == 1.0
    ensures SumReal(Weights(DefaultPm(p))) == 1.0
  {
    var w := Weights(DefaultAnalysts(p));
    SumRealOfFour(w);
    var v := Weights(DefaultManagers(p));
    SumRealOfTwo(v);
    var u := Weights(DefaultPm(p));
    assert u[1..] == [];
  }

  lemma SumRealOfFour(w: seq<real>)
    requires |w| == 4
    ensures SumReal(w) == w[0] + w[1] + w[2] + w[3]
  {
    var t1, t2, t3 := w[1..], w[1..][1..], w[1..][1..][1..];
    assert t1[0] == w[1] && t2[0] == w[2] && t3[0] == w[3] && t3[1..] == [];
    assert SumReal(t3) == w[3];
    assert SumReal(t2) == w[2] + w[3];
    assert SumReal(t1) == w[1] + w[2] + w[3];
  }

  lemma SumRealOfTwo(w: seq<real>)
    requires |w| == 2
    ensures SumReal(w) == w[0] + w[1]
  {
    var t1 := w[1..];
    assert t1[0] == w[1] && t1[1..] == [];
    assert SumReal(t1) == w[1];
  }

  /** The default levels sit under the three level keys, in order. */
  lemma DefaultLevels(p: Prompts)
    ensures |DefaultConfig(p).levels| == 3
    ensures forall k :: 0 <= k < 3 ==> DefaultConfig(p).levels[k].key == LevelKey(k + 1)
    ensures DefaultConfig(p).levels[0].agents == DefaultAnalysts(p)
    ensures DefaultConfig(p).levels[1].agents == DefaultManagers(p)
    ensures DefaultConfig(p).levels[2].agents == DefaultPm(p)
  {
    LevelKeyOne(1);
    LevelKeyTwo(2);
    LevelKeyThree(3);
  }

  /** The default roster's agents, level by level. */
  lemma DefaultAllAgents(p: Prompts)
    ensures AllAgents(DefaultConfig(p).levels) == DefaultAnalysts(p) + DefaultManagers(p) + DefaultPm(p)
  {
    var levels := DefaultConfig(p).levels;
    assert levels[..1][..0] == [];
    assert levels[..2][..1] == levels[..1];
    assert levels[..3][..2] == levels[..2];
    assert levels[..3] == levels;
    assert AllAgents(levels[..1]) == DefaultAnalysts(p);
    assert AllAgents(levels[..2]) == DefaultAnalysts(p) + DefaultManagers(p);
  }

  /** `get_level_agents` on the default roster: its three levels, and no agents for any other level. */
  lemma DefaultLevelAgents(p: Prompts, level: int)
    ensures LevelAgents(DefaultConfig(p), level)
         == if level == 1 then DefaultAnalysts(p) else if level == 2 then DefaultManagers(p)
            else if level == 3 then DefaultPm(p) else []
  {
    LevelKeyOne(level);
    LevelKeyTwo(level);
    LevelKeyThree(level);
    var levels := DefaultConfig(p).levels;
    var key := LevelKey(level);
    var rest := levels[1..];
    assert rest[0].key == "level_2_managers" && rest[1..][0].key == "level_3_pm" && rest[1..][1..] == [];
    assert AgentsUnder(levels, key) == if key == "level_1_analysts" then levels[0].agents else AgentsUnder(rest, key);
    assert AgentsUnder(rest, key) == if key == "level_2_managers" then rest[0].agents else AgentsUnder(rest[1..], key);
  }

  /** The request's step for each level names the ids of that level's default agents. */
  lemma RequestMatchesRoster(p: Prompts, symbol: string, name: string)
    ensures forall k :: 0 <= k < 3 ==>
              GenerateAnalysisRequest(symbol, name).workflow[k].agents == Ids(LevelAgents(DefaultConfig(p), k + 1))
  {
    var w := GenerateAnalysisRequest(symbol, name).workflow;
    DefaultIds(p);
    forall k | 0 <= k < 3 ensures w[k].agents == Ids(LevelAgents(DefaultConfig(p), k + 1)) {
      DefaultLevelAgents(p, k + 1);
    }
  }

  /** The ids of the default levels. */
  lemma DefaultIds(p: Prompts)
    ensures Ids(DefaultAnalysts(p)) == LevelOneIds
    ensures Ids(DefaultManagers(p)) == LevelTwoIds
    ensures Ids(DefaultPm(p)) == LevelThreeIds
  {
  }

  /** Every default id is found, the portfolio manager as the roster's last agent, and there are seven agents. */
  lemma DefaultRosterLookup(p: Prompts)
    ensures |AllAgents(DefaultConfig(p).levels)| == 7
    ensures forall k :: 0 <= k < |LevelOneIds| ==> FindAgent(DefaultConfig(p).levels, LevelOneIds[k]).Some?
    ensures FindAgent(DefaultConfig(p).levels, "PM_001") == Some(DefaultPm(p)[0])
    ensures FindAgent(DefaultConfig(p).levels, "UNKNOWN_001") == None
  {
    DefaultAllAgents(p);
    var all := AllAgents(DefaultConfig(p).levels);
    FirstWithIdExactly(all, "UNKNOWN_001");
    FirstWithIdExactly(all, "PM_001");
    assert all[6] == DefaultPm(p)[0];
    assert forall j :: 0 <= j < 6 ==> all[j].id != "PM_001";
    forall k | 0 <= k < |LevelOneIds| ensures FindAgent(DefaultConfig(p).levels, LevelOneIds[k]).Some? {
      FirstWithIdExactly(all, LevelOneIds[k]);
      assert all[k].id == LevelOneIds[k];
    }
  }
}
