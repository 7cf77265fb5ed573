// agent_spawner.py: spawn records for the three-level pipeline (four
// analysts, two managers given a summary of the analysts' records, one
// portfolio manager given the record counts) and the batch configuration.
module Spawner {
  import opened Common
  import opened AgentGroup

  /** The fixed text of `_build_agent_prompt` around the symbol, name and date. */
  datatype SpawnFrame = SpawnFrame(heading: string, nameLabel: string, dateLabel: string, instructions: string)

  const SpawnText: SpawnFrame := SpawnFrame(
    "\n\n---\n\n**분석 대상**\n- 종목코드: ",
    "\n- 종목명: ",
    "\n- 분석일: ",
    "\n\n**지침**\n1. 제공된 데이터를 바탕으로 철저한 분석 수행\n2. 각 항목별 점수(0-25점)와 총점(0-100점) 계산\n3. 핵심 신호와 리스크 요인 명시\n4. BUY/HOLD/SELL 중 하나의 명확한 추천 제시\n5. 근거를 구체적으로 설명\n\n**출력 형식 (반드시 JSON)**\n```json\n{\n  \"total_score\": 0-100,\n  \"breakdown\": {...},\n  \"key_signals\": [\"...\"],\n  \"risk_flags\": [\"...\"],\n  \"recommendation\": \"BUY/HOLD/SELL\",\n  \"rationale\": \"...\"\n}\n```\n\n분석을 시작하세요.")

  /** `_build_agent_prompt`: the agent's template, then the stock and the analysis date, then the instructions. */
  function SpawnPrompt(frame: SpawnFrame, a: Agent, symbol: string, name: string, date: string): string
  {
    a.promptTemplate + frame.heading + symbol + frame.nameLabel + name + frame.dateLabel + date + frame.instructions
  }

  /** `spawn_agent`'s result: an error naming an unknown id, or the spawn configuration. */
  datatype Spawn =
    | NotFound(error: string)
    | Spawned(agentId: string, agentName: string, symbol: string, name: string, prompt: string, status: string)

  /** One entry of the managers' `level1_summary` context. */
  datatype Summary = Summary(agent: string, symbol: string, status: string)

  /** The counts the portfolio manager is given. */
  datatype InputCounts = InputCounts(level1Count: nat, level2Count: nat)

  /** A spawn result with the keys the level runners add to it afterwards. */
  datatype SpawnRecord = SpawnRecord(spawn: Spawn, context: Option<seq<Summary>>, inputs: Option<InputCounts>)

  function SpawnOf(frame: SpawnFrame, config: GroupConfig, id: string, symbol: string, name: string, date: string): Spawn
  {
    var found := FindAgent(config.levels, id);
    if found.None? then NotFound("Agent " + id + " not found")
    else Spawned(id, found.value.name, symbol, name, SpawnPrompt(frame, found.value, symbol, name, date), "spawned")
  }

  /** `spawn_agent`. */
  method SpawnAgent(frame: SpawnFrame, config: GroupConfig, id: string, symbol: string, name: string, date: string)
    returns (s: Spawn)
    ensures s == SpawnOf(frame, config, id, symbol, name, date)
  {
    var agent := GetAgent(config, id);
    if agent.None? {
      return NotFound("Agent " + id + " not found");
    }
    var prompt := SpawnPrompt(frame, agent.value, symbol, name, date);
    s := Spawned(id, agent.value.name, symbol, name, prompt, "spawned");
  }

  /**
   * An unknown id gives exactly the error naming it; a known one is spawned
   * under its own id, name and the stock, with a prompt that starts with
   * the agent's template.
   */
  lemma SpawnExactly(frame: SpawnFrame, config: GroupConfig, id: string, symbol: string, name: string, date: string)
    ensures var s := SpawnOf(frame, config, id, symbol, name, date);
            (s.NotFound? <==> FindAgent(config.levels, id).None?)
            && (s.NotFound? ==> s.error == "Agent " + id + " not found")
            && (s.Spawned? ==>
                  s.agentId == id && s.agentName == FindAgent(config.levels, id).value.name
                  && s.symbol == symbol && s.name == name && s.status == "spawned"
                  && |s.prompt| >= |FindAgent(config.levels, id).value.promptTemplate|
                  && s.prompt[..|FindAgent(config.levels, id).value.promptTemplate|] == FindAgent(config.levels, id).value.promptTemplate)
  {
    var found := FindAgent(config.levels, id);
    if found.Some? {
      var t := found.value.promptTemplate;
      var rest := frame.heading + symbol + frame.nameLabel + name + frame.dateLabel + date + frame.instructions;
      assert SpawnPrompt(frame, found.value, symbol, name, date) == t + rest;
      assert (t + rest)[..|t|] == t;
    }
  }

  /** The record of one spawned id, before any key is added. */
  function Plain(s: Spawn): SpawnRecord
  {
    SpawnRecord(s, None, None)
  }

  /** `run_level1_parallel`: the four analysts spawned in order. */
  method RunLevel1Parallel(frame: SpawnFrame, config: GroupConfig, symbol: string, name: string, date: string)
    returns (spawned: seq<SpawnRecord>)
    ensures |spawned| == |LevelOneIds| == 4
    ensures forall k :: 0 <= k < 4 ==> spawned[k] == Plain(SpawnOf(frame, config, LevelOneIds[k], symbol, name, date))
  {
    var ids := LevelOneIds;
    spawned := [];
    var i := 0;
    while i < |ids|
      invariant 0 <= i <= |ids|
      invariant |spawned| == i
      invariant forall k :: 0 <= k < i ==> spawned[k] == Plain(SpawnOf(frame, config, ids[k], symbol, name, date))
    {
      var s := SpawnAgent(frame, config, ids[i], symbol, name, date);
      spawned := spawned + [Plain(s)];
      i := i + 1;
    }
  }

  /**
   * The `level1_summary` list: one entry per Level-1 record, in order, or
   * None when a record has no `agent_name` (an error record), which raises
   * a KeyError.
   */
  function SummaryOf(level1: seq<SpawnRecord>): (summary: Option<seq<Summary>>)
    ensures summary.Some? <==> forall k :: 0 <= k < |level1| ==> level1[k].spawn.Spawned?
    ensures summary.Some? ==>
              |summary.value| == |level1|
              && forall k :: 0 <= k < |level1| ==>
                   summary.value[k] == Summary(level1[k].spawn.agentName, level1[k].spawn.symbol, level1[k].spawn.status)
  {
    if forall k :: 0 <= k < |level1| ==> level1[k].spawn.Spawned?
    then Some(seq(|level1|, k requires 0 <= k < |level1| && level1[k].spawn.Spawned? =>
                    Summary(level1[k].spawn.agentName, level1[k].spawn.symbol, level1[k].spawn.status)))
    else None
  }

  /**
   * `run_level2_parallel`: the two managers spawned in order, each given
   * the Level-1 summary as its context; None when building the summary raises.
   */
  method RunLevel2Parallel(frame: SpawnFrame, config: GroupConfig, symbol: string, name: string, date: string,
                           level1: seq<SpawnRecord>)
    returns (spawned: Option<seq<SpawnRecord>>)
    ensures SummaryOf(level1).None? ==> spawned == None
    ensures SummaryOf(level1).Some? ==>
              spawned.Some? && |spawned.value| == |LevelTwoIds| == 2
              && forall k :: 0 <= k < 2 ==>
                   spawned.value[k] == SpawnRecord(SpawnOf(frame, config, LevelTwoIds[k], symbol, name, date), SummaryOf(level1), None)
  {
    var ids := LevelTwoIds;
    var result: seq<SpawnRecord> := [];
    var i := 0;
    while i < |ids|
      invariant 0 <= i <= |ids|
      invariant |result| == i
      invariant i > 0 ==> SummaryOf(level1).Some?
      invariant forall k :: 0 <= k < i ==>
                  result[k] == SpawnRecord(SpawnOf(frame, config, ids[k], symbol, name, date), SummaryOf(level1), None)
    {
      var context := SummaryOf(level1);
      if context.None? {
        return None;
      }
      var s := SpawnAgent(frame, config, ids[i], symbol, name, date);
      result := result + [SpawnRecord(s, context, None)];
      i := i + 1;
    }
    spawned := Some(result);
  }

  /** `run_level3_final`: PM_001 spawned and given the two record counts. */
  method RunLevel3Final(frame: SpawnFrame, config: GroupConfig, symbol: string, name: string, date: string,
                        level1: seq<SpawnRecord>, level2: seq<SpawnRecord>)
    returns (record: SpawnRecord)
    ensures record == SpawnRecord(SpawnOf(frame, config, "PM_001", symbol, name, date), None,
                                  Some(InputCounts(|level1|, |level2|)))
  {
    var s := SpawnAgent(frame, config, "PM_001", symbol, name, date);
    record := SpawnRecord(s, None, None);
    record := record.(inputs := Some(InputCounts(|level1|, |level2|)));
  }

  /** The pipeline record, without its id and timestamps. */
  datatype Pipeline = Pipeline(symbol: string, name: string, level1: seq<SpawnRecord>, level2: seq<SpawnRecord>,
                               level3: SpawnRecord, level1Spawned: nat, level2Spawned: nat, level3Spawned: nat,
                               totalAgents: nat, status: string)

  /**
   * `run_full_pipeline`: the three levels in order, each given the earlier
   * levels' records; None when the Level-2 summary raises.
   */
  method RunFullPipeline(frame: SpawnFrame, config: GroupConfig, symbol: string, name: string, date: string)
    returns (result: Option<Pipeline>)
    ensures result.Some? <==> forall k :: 0 <= k < 4 ==> FindAgent(config.levels, LevelOneIds[k]).Some?
    ensures result.Some? ==>
              var p := result.value;
              |p.level1| == 4 && |p.level2| == 2
              && (forall k :: 0 <= k < 4 ==> p.level1[k] == Plain(SpawnOf(frame, config, LevelOneIds[k], symbol, name, date)))
              && (forall k :: 0 <= k < 2 ==> p.level2[k].spawn == SpawnOf(frame, config, LevelTwoIds[k], symbol, name, date)
                                             && p.level2[k].context == SummaryOf(p.level1))
              && p.level3 == SpawnRecord(SpawnOf(frame, config, "PM_001", symbol, name, date), None, Some(InputCounts(4, 2)))
              && p.level1Spawned == |p.level1| && p.level2Spawned == |p.level2| && p.level3Spawned == 1
              && p.totalAgents == |p.level1| + |p.level2| + 1 == 7
              && p.status == "pipeline_initialized"
  {
    var level1 := RunLevel1Parallel(frame, config, symbol, name, date);
    forall k | 0 <= k < 4 ensures level1[k].spawn.Spawned? <==> FindAgent(config.levels, LevelOneIds[k]).Some? {
      SpawnExactly(frame, config, LevelOneIds[k], symbol, name, date);
    }
    var level2 := RunLevel2Parallel(frame, config, symbol, name, date, level1);
    if level2.None? {
      return None;
    }
    var level3 := RunLevel3Final(frame, config, symbol, name, date, level1, level2.value);
    result := Some(Pipeline(symbol, name, level1, level2.value, level3, |level1|, |level2.value|, 1,
                            |level1| + |level2.value| + 1, "pipeline_initialized"));
  }

  /**
   * With the default roster every analyst is spawned, so the pipeline is
   * built; PM_001 is spawned with the roster's portfolio manager and an
   * unknown id gives the not-found error.
   */
  lemma DefaultRosterSpawns(frame: SpawnFrame, p: Prompts, symbol: string, name: string, date: string)
    ensures forall k :: 0 <= k < 4 ==> SpawnOf(frame, DefaultConfig(p), LevelOneIds[k], symbol, name, date).Spawned?
    ensures SpawnOf(frame, DefaultConfig(p), "PM_001", symbol, name, date)
            == Spawned("PM_001", DefaultPm(p)[0].name, symbol, name, SpawnPrompt(frame, DefaultPm(p)[0], symbol, name, date), "spawned")
    ensures SpawnOf(frame, DefaultConfig(p), "UNKNOWN_001", symbol, name, date) == NotFound("Agent UNKNOWN_001 not found")
  {
    DefaultRosterLookup(p);
  }

  /** One level of the batch workflow. */
  datatype WorkflowLevel = WorkflowLevel(level: int, agents: nat, parallel: bool)

  /** The configuration `create_batch_config` writes, without its id and timestamp. */
  datatype BatchConfig = BatchConfig(stockCount: nat, stocks: seq<(string, string)>, parallelStocks: bool,
                                     parallelAgents: bool, levels: seq<WorkflowLevel>)

  function CreateBatchConfig(stocks: seq<(string, string)>): BatchConfig
  {
    BatchConfig(|stocks|, stocks, false, true,
                [WorkflowLevel(1, 4, true), WorkflowLevel(2, 2, true), WorkflowLevel(3, 1, false)])
  }

  /**
   * The batch configuration counts its stocks, runs them one at a time,
   * and lists levels 1, 2, 3 with as many agents as the pipeline spawns
   * per level (the level ids of the analysis request), only the last
   * sequential.
   */
  lemma BatchConfigShape(stocks: seq<(string, string)>)
    ensures var c := CreateBatchConfig(stocks);
            c.stockCount == |c.stocks| == |stocks| && !c.parallelStocks && c.parallelAgents
            && |c.levels| == 3
            && (forall k :: 0 <= k < 3 ==> c.levels[k].level == k + 1 && (c.levels[k].parallel <==> k < 2))
            && c.levels[0].agents == |LevelOneIds| && c.levels[1].agents == |LevelTwoIds|
            && c.levels[2].agents == |LevelThreeIds|
            && c.levels[0].agents + c.levels[1].agents + c.levels[2].agents == 7
  {
  }
}
