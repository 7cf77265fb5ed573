// agent_orchestrator.py: prepares one pending entry per agent, level by
// level (four analysts, then the two managers given the Level-1 map, then
// the portfolio manager given both), from the agents' configuration.
module Orchestrator {
  import opened Common
  import opened AgentGroup

  /** The fixed text around the interpolated fields of a prompt. */
  datatype PromptFrame = PromptFrame(heading: string, nameLabel: string, roleLabel: string,
                                     specialtyLabel: string, closing: string)

  /** The text of `get_agent_prompt` around the symbol, name, role and specialty. */
  const Frame: PromptFrame := PromptFrame(
    "\n\n---\n\n**분석 대상 종목**\n- 종목코드: ",
    "\n- 종목명: ",
    "\n\n**당신의 역할**: ",
    "\n**전문 분야**: ",
    "\n\n현재 시장 데이터와 종목 정보를 바탕으로 분석을 수행하고, 0-100점의 점수와 함께 상세한 근거를 제시하세요.\n\n출력은 반드시 JSON 형식으로 제공하세요.")

  /** The prompt for a found agent: its template, then the stock, then its role and specialty. */
  function PromptFor(frame: PromptFrame, a: Agent, symbol: string, name: string): string
  {
    a.promptTemplate + frame.heading + symbol + frame.nameLabel + name
    + frame.roleLabel + a.role + frame.specialtyLabel + a.specialty + frame.closing
  }

  /** The prompt starts with the agent's template, and the symbol and the name follow the stock heading. */
  lemma PromptShape(frame: PromptFrame, a: Agent, symbol: string, name: string)
    ensures var p := PromptFor(frame, a, symbol, name);
            var s := |a.promptTemplate| + |frame.heading|;
            var t := s + |symbol| + |frame.nameLabel|;
            |p| >= t + |name|
            && p[..|a.promptTemplate|] == a.promptTemplate
            && p[s..s + |symbol|] == symbol
            && p[t..t + |name|] == name
  {
    var p := PromptFor(frame, a, symbol, name);
    var head := a.promptTemplate + frame.heading + symbol + frame.nameLabel + name;
    var rest := frame.roleLabel + a.role + frame.specialtyLabel + a.specialty + frame.closing;
    assert p == head + rest;
    assert p[..|head|] == head;
  }

  /** What `get_agent_prompt` returns: "" for an unknown id. */
  function AgentPromptText(frame: PromptFrame, config: GroupConfig, id: string, symbol: string, name: string): string
  {
    var found := FindAgent(config.levels, id);
    if found.Some? then PromptFor(frame, found.value, symbol, name) else ""
  }

  /**
   * `get_agent_prompt`: the scan that breaks out of both loops at the first
   * agent with the id, then the prompt, or "" when none was found.
   */
  method AgentPrompt(frame: PromptFrame, config: GroupConfig, id: string, symbol: string, name: string) returns (prompt: string)
    ensures prompt == AgentPromptText(frame, config, id, symbol, name)
  {
    var levels := config.levels;
    var agent: Option<Agent> := None;
    var i := 0;
    while i < |levels| && agent.None?
      invariant 0 <= i <= |levels|
      invariant agent.None? ==> FirstWithId(AllAgents(levels[..i]), id) == None
      invariant agent.Some? ==> agent == FindAgent(levels, id)
    {
      assert levels[..i + 1][..i] == levels[..i];
      var agents := levels[i].agents;
      var j := 0;
      while j < |agents| && agent.None?
        invariant 0 <= j <= |agents|
        invariant agent.None? ==> FirstWithId(agents[..j], id) == None
        invariant agent.Some? ==> agent == FindAgent(levels, id)
      {
        FirstWithIdAppend(agents[..j], [agents[j]], id);
        assert agents[..j + 1] == agents[..j] + [agents[j]];
        if agents[j].id == id {
          FirstWithIdAppend(AllAgents(levels[..i]), agents, id);
          FirstWithIdAppend(agents[..j + 1], agents[j + 1..], id);
          assert agents == agents[..j + 1] + agents[j + 1..];
          AllAgentsPrefix(levels, i);
          FirstWithIdAppend(AllAgents(levels[..i + 1]), AllAgents(levels[i + 1..]), id);
          agent := Some(agents[j]);
        }
        j := j + 1;
      }
      if agent.None? {
        assert agents[..j] == agents;
        FirstWithIdAppend(AllAgents(levels[..i]), agents, id);
      }
      i := i + 1;
    }
    if agent.None? {
      assert levels[..i] == levels;
      return "";
    }
    prompt := PromptFor(frame, agent.value, symbol, name);
  }

  /** What an entry was prepared with: nothing, the Level-1 map, or both earlier maps. */
  datatype Inputs =
    | NoInputs
    | FromLevel1(level1: map<string, Pending>)
    | FromLevels(level1: map<string, Pending>, level2: map<string, Pending>)

  /** A prepared entry: status 'pending', result None, and the first 200 characters of the prompt plus "...". */
  datatype Pending = Pending(agentName: string, agentRole: string, inputs: Inputs, prompt: string,
                             status: string, result: Option<string>)

  function PendingEntry(a: Agent, inputs: Inputs, prompt: string): Pending
  {
    Pending(a.name, a.role, inputs, Prefix(prompt, 200) + "...", "pending", None)
  }

  function PendingFor(frame: PromptFrame, a: Agent, inputs: Inputs, symbol: string, name: string): Pending
  {
    PendingEntry(a, inputs, PromptFor(frame, a, symbol, name))
  }

  /** A stored prompt is the prompt's first 200 characters (all of a shorter one) followed by "...". */
  lemma StoredPrompt(frame: PromptFrame, a: Agent, inputs: Inputs, symbol: string, name: string)
    ensures var full := PromptFor(frame, a, symbol, name);
            var stored := PendingFor(frame, a, inputs, symbol, name).prompt;
            |stored| == Min(200, |full|) + 3
            && stored[..|stored| - 3] == full[..Min(200, |full|)]
            && stored[|stored| - 3..] == "..."
  {
  }

  /** The first id the configuration does not know, if any. */
  function FirstMissing(levels: seq<Level>, ids: seq<string>): Option<string>
  {
    if ids == [] then None
    else if FindAgent(levels, ids[0]).None? then Some(ids[0])
    else FirstMissing(levels, ids[1..])
  }

  /** The entries of one level, keyed by id, each id's entry replacing any earlier one. */
  function Entries(frame: PromptFrame, levels: seq<Level>, ids: seq<string>, inputs: Inputs, symbol: string, name: string): map<string, Pending>
    requires FirstMissing(levels, ids) == None
  {
    if ids == [] then map[]
    else
      FirstMissingAppend(levels, ids[..|ids| - 1], [ids[|ids| - 1]]);
      assert ids[..|ids| - 1] + [ids[|ids| - 1]] == ids;
      Entries(frame, levels, ids[..|ids| - 1], inputs, symbol, name)[ids[|ids| - 1] := PendingFor(frame, FindAgent(levels, ids[|ids| - 1]).value, inputs, symbol, name)]
  }

  /** Searching a concatenation for an unknown id searches the first part, then the second. */
  lemma {:induction false} FirstMissingAppend(levels: seq<Level>, a: seq<string>, b: seq<string>)
    ensures FirstMissing(levels, a + b) == if FirstMissing(levels, a).Some? then FirstMissing(levels, a) else FirstMissing(levels, b)
  {
    if a != [] {
      assert (a + b)[1..] == a[1..] + b;
      FirstMissingAppend(levels, a[1..], b);
    } else {
      assert a + b == b;
    }
  }

  /** No id is missing exactly when every id is found; a missing id is the first unknown one. */
  lemma {:induction false} FirstMissingExactly(levels: seq<Level>, ids: seq<string>)
    ensures FirstMissing(levels, ids).None? <==> forall k :: 0 <= k < |ids| ==> FindAgent(levels, ids[k]).Some?
    ensures FirstMissing(levels, ids).Some? ==>
              exists k :: 0 <= k < |ids| && ids[k] == FirstMissing(levels, ids).value
                          && FindAgent(levels, ids[k]).None?
                          && forall j :: 0 <= j < k ==> FindAgent(levels, ids[j]).Some?
  {
    if ids != [] && FindAgent(levels, ids[0]).Some? {
      FirstMissingExactly(levels, ids[1..]);
      if FirstMissing(levels, ids).Some? {
        var k :| 0 <= k < |ids[1..]| && ids[1..][k] == FirstMissing(levels, ids).value
                 && FindAgent(levels, ids[1..][k]).None?
                 && forall j :: 0 <= j < k ==> FindAgent(levels, ids[1..][j]).Some?;
        assert ids[k + 1] == ids[1..][k];
        forall j | 0 <= j < k + 1 ensures FindAgent(levels, ids[j]).Some? {
          if j > 0 {
            assert ids[j] == ids[1..][j - 1];
          }
        }
      } else {
        forall k | 0 <= k < |ids| ensures FindAgent(levels, ids[k]).Some? {
          if k > 0 {
            assert ids[k] == ids[1..][k - 1];
          }
        }
      }
    }
  }

  /** A level's map is keyed by exactly its ids, each entry made from that id's agent. */
  lemma {:induction false} EntriesExactly(frame: PromptFrame, levels: seq<Level>, ids: seq<string>, inputs: Inputs, symbol: string, name: string)
    requires FirstMissing(levels, ids) == None
    ensures forall id :: id in Entries(frame, levels, ids, inputs, symbol, name) <==> id in ids
    ensures forall id :: id in ids ==>
              FindAgent(levels, id).Some?
              && Entries(frame, levels, ids, inputs, symbol, name)[id] == PendingFor(frame, FindAgent(levels, id).value, inputs, symbol, name)
  {
    if ids != [] {
      var init := ids[..|ids| - 1];
      var last := ids[|ids| - 1];
      FirstMissingAppend(levels, init, [last]);
      assert init + [last] == ids;
      EntriesExactly(frame, levels, init, inputs, symbol, name);
      var agent := FindAgent(levels, last).value;
      var before := Entries(frame, levels, init, inputs, symbol, name);
      var after := Entries(frame, levels, ids, inputs, symbol, name);
      assert after == before[last := PendingFor(frame, agent, inputs, symbol, name)];
      forall id ensures id in after <==> id in ids {
        assert id in ids <==> id in init || id == last;
      }
      forall id | id in ids
        ensures FindAgent(levels, id).Some?
        ensures after[id] == PendingFor(frame, FindAgent(levels, id).value, inputs, symbol, name)
      {
        assert id == last || id in init;
      }
    }
  }

  /** A level's outcome: its entries, or the id whose missing agent raised the KeyError. */
  datatype LevelRun<T> = Done(value: T) | MissingAgent(id: string)

  function LevelOutcome(frame: PromptFrame, levels: seq<Level>, ids: seq<string>, inputs: Inputs, symbol: string, name: string)
    : LevelRun<map<string, Pending>>
  {
    var missing := FirstMissing(levels, ids);
    if missing.Some? then MissingAgent(missing.value) else Done(Entries(frame, levels, ids, inputs, symbol, name))
  }

  /**
   * One iteration of the level loops: the agent's info (`agent['name']`
   * raises on `{}`, here None), its prompt, and the pending entry.
   */
  method PrepareEntry(frame: PromptFrame, config: GroupConfig, id: string, inputs: Inputs, symbol: string, name: string)
    returns (entry: Option<Pending>)
    ensures FindAgent(config.levels, id).None? ==> entry == None
    ensures FindAgent(config.levels, id).Some? ==> entry == Some(PendingFor(frame, FindAgent(config.levels, id).value, inputs, symbol, name))
  {
    var agent := GetAgent(config, id);
    if agent.None? {
      return None;
    }
    var prompt := AgentPrompt(frame, config, id, symbol, name);
    entry := Some(PendingEntry(agent.value, inputs, prompt));
  }

  /**
   * The loop shared by `run_level1_analysis` and `run_level2_analysis`
   * (and, for one id, `run_level3_decision`): one entry per id, in order,
   * stopping at the first id whose agent is unknown.
   */
  method RunLevel(frame: PromptFrame, config: GroupConfig, ids: seq<string>, inputs: Inputs, symbol: string, name: string)
    returns (out: LevelRun<map<string, Pending>>)
    ensures out == LevelOutcome(frame, config.levels, ids, inputs, symbol, name)
  {
    var results: map<string, Pending> := map[];
    var i := 0;
    while i < |ids|
      invariant 0 <= i <= |ids|
      invariant FirstMissing(config.levels, ids[..i]) == None
      invariant results == Entries(frame, config.levels, ids[..i], inputs, symbol, name)
    {
      var entry := PrepareEntry(frame, config, ids[i], inputs, symbol, name);
      if entry.None? {
        MissingStep(config.levels, ids, i);
        return MissingAgent(ids[i]);
      }
      EntriesStep(frame, config.levels, ids, i, inputs, symbol, name);
      results := results[ids[i] := entry.value];
      i := i + 1;
    }
    assert ids[..i] == ids;
    out := Done(results);
  }

  /** One more known id extends a level's entries by that id's entry. */
  lemma EntriesStep(frame: PromptFrame, levels: seq<Level>, ids: seq<string>, i: nat, inputs: Inputs, symbol: string, name: string)
    requires i < |ids| && FirstMissing(levels, ids[..i]) == None && FindAgent(levels, ids[i]).Some?
    ensures FirstMissing(levels, ids[..i + 1]) == None
    ensures Entries(frame, levels, ids[..i + 1], inputs, symbol, name)
         == Entries(frame, levels, ids[..i], inputs, symbol, name)[ids[i] := PendingFor(frame, FindAgent(levels, ids[i]).value, inputs, symbol, name)]
  {
    FirstMissingAppend(levels, ids[..i], [ids[i]]);
    assert ids[..i + 1] == ids[..i] + [ids[i]];
    assert ids[..i + 1][..i] == ids[..i];
  }

  /** An unknown id after known ones is the first unknown id. */
  lemma MissingStep(levels: seq<Level>, ids: seq<string>, i: nat)
    requires i < |ids| && FirstMissing(levels, ids[..i]) == None && FindAgent(levels, ids[i]).None?
    ensures FirstMissing(levels, ids) == Some(ids[i])
  {
    FirstMissingAppend(levels, ids[..i], ids[i..]);
    assert ids[..i] + ids[i..] == ids;
  }

  /** `run_level1_analysis`: the four analysts, with no inputs. */
  method RunLevel1Analysis(frame: PromptFrame, config: GroupConfig, symbol: string, name: string)
    returns (out: LevelRun<map<string, Pending>>)
    ensures out == LevelOutcome(frame, config.levels, LevelOneIds, NoInputs, symbol, name)
  {
    out := RunLevel(frame, config, LevelOneIds, NoInputs, symbol, name);
  }

  /** `run_level2_analysis`: the two managers, each carrying the Level-1 map. */
  method RunLevel2Analysis(frame: PromptFrame, config: GroupConfig, symbol: string, name: string,
                           level1: map<string, Pending>)
    returns (out: LevelRun<map<string, Pending>>)
    ensures out == LevelOutcome(frame, config.levels, LevelTwoIds, FromLevel1(level1), symbol, name)
  {
    out := RunLevel(frame, config, LevelTwoIds, FromLevel1(level1), symbol, name);
  }

  /** `run_level3_decision`: the single entry PM_001, carrying both earlier maps. */
  method RunLevel3Decision(frame: PromptFrame, config: GroupConfig, symbol: string, name: string,
                           level1: map<string, Pending>, level2: map<string, Pending>)
    returns (out: LevelRun<map<string, Pending>>)
    ensures out == LevelOutcome(frame, config.levels, LevelThreeIds, FromLevels(level1, level2), symbol, name)
  {
    var entry := PrepareEntry(frame, config, "PM_001", FromLevels(level1, level2), symbol, name);
    assert LevelThreeIds[1..] == [] && LevelThreeIds[..|LevelThreeIds| - 1] == [];
    assert FirstMissing(config.levels, LevelThreeIds)
        == if FindAgent(config.levels, "PM_001").None? then Some("PM_001") else None;
    if entry.None? {
      return MissingAgent("PM_001");
    }
    assert Entries(frame, config.levels, LevelThreeIds[..0], FromLevels(level1, level2), symbol, name) == map[];
    out := Done(map["PM_001" := entry.value]);
  }

  /** The record `run_full_analysis` writes, without its id and timestamp. */
  datatype FullAnalysis = FullAnalysis(symbol: string, name: string, level1: map<string, Pending>,
                                       level2: map<string, Pending>, level3: map<string, Pending>, status: string)

  /** The three levels in order, each given the earlier levels' maps; the first KeyError ends the run. */
  function FullOutcome(frame: PromptFrame, config: GroupConfig, symbol: string, name: string): LevelRun<FullAnalysis>
  {
    match LevelOutcome(frame, config.levels, LevelOneIds, NoInputs, symbol, name)
    case MissingAgent(id) => MissingAgent(id)
    case Done(level1) =>
      match LevelOutcome(frame, config.levels, LevelTwoIds, FromLevel1(level1), symbol, name)
      case MissingAgent(id) => MissingAgent(id)
      case Done(level2) =>
        match LevelOutcome(frame, config.levels, LevelThreeIds, FromLevels(level1, level2), symbol, name)
        case MissingAgent(id) => MissingAgent(id)
        case Done(level3) => Done(FullAnalysis(symbol, name, level1, level2, level3, "completed"))
  }

  /** `run_full_analysis`: Level 1, then Level 2 on its output, then Level 3 on both. */
  method RunFullAnalysis(frame: PromptFrame, config: GroupConfig, symbol: string, name: string)
    returns (out: LevelRun<FullAnalysis>)
    ensures out == FullOutcome(frame, config, symbol, name)
  {
    var level1 := RunLevel1Analysis(frame, config, symbol, name);
    if level1.MissingAgent? {
      return MissingAgent(level1.id);
    }
    var level2 := RunLevel2Analysis(frame, config, symbol, name, level1.value);
    if level2.MissingAgent? {
      return MissingAgent(level2.id);
    }
    var level3 := RunLevel3Decision(frame, config, symbol, name, level1.value, level2.value);
    if level3.MissingAgent? {
      return MissingAgent(level3.id);
    }
    out := Done(FullAnalysis(symbol, name, level1.value, level2.value, level3.value, "completed"));
  }

  /**
   * The run completes exactly when all seven ids are configured, and
   * otherwise stops at the first unknown one in level order.
   */
  lemma FullOutcomeMissing(frame: PromptFrame, config: GroupConfig, symbol: string, name: string)
    ensures var all := LevelOneIds + LevelTwoIds + LevelThreeIds;
            (FullOutcome(frame, config, symbol, name).Done? <==> FirstMissing(config.levels, all) == None)
            && (FullOutcome(frame, config, symbol, name).Done? <==>
                  forall k :: 0 <= k < |all| ==> FindAgent(config.levels, all[k]).Some?)
            && (FullOutcome(frame, config, symbol, name).MissingAgent? ==>
                  FirstMissing(config.levels, all) == Some(FullOutcome(frame, config, symbol, name).id))
  {
    var levels := config.levels;
    FirstMissingAppend(levels, LevelOneIds, LevelTwoIds);
    FirstMissingAppend(levels, LevelOneIds + LevelTwoIds, LevelThreeIds);
    FirstMissingExactly(levels, LevelOneIds + LevelTwoIds + LevelThreeIds);
  }

  /**
   * A completed run holds the four analysts' entries, the two managers'
   * entries carrying that Level-1 map unchanged, and PM_001 carrying both
   * maps; every entry is pending with no result.
   */
  lemma FullAnalysisShape(frame: PromptFrame, config: GroupConfig, symbol: string, name: string)
    requires FullOutcome(frame, config, symbol, name).Done?
    ensures var r := FullOutcome(frame, config, symbol, name).value;
            r.status == "completed" && r.symbol == symbol && r.name == name
            && (forall id :: id in r.level1 <==> id in LevelOneIds)
            && (forall id :: id in r.level2 <==> id in LevelTwoIds)
            && (forall id :: id in r.level3 <==> id in LevelThreeIds)
            && (forall id :: id in r.level1 ==> r.level1[id].inputs == NoInputs && r.level1[id].status == "pending" && r.level1[id].result == None)
            && (forall id :: id in r.level2 ==> r.level2[id].inputs == FromLevel1(r.level1) && r.level2[id].status == "pending" && r.level2[id].result == None)
            && (forall id :: id in r.level3 ==> r.level3[id].inputs == FromLevels(r.level1, r.level2) && r.level3[id].status == "pending" && r.level3[id].result == None)
  {
    var levels := config.levels;
    var level1 := Entries(frame, levels, LevelOneIds, NoInputs, symbol, name);
    EntriesExactly(frame, levels, LevelOneIds, NoInputs, symbol, name);
    var level2 := Entries(frame, levels, LevelTwoIds, FromLevel1(level1), symbol, name);
    EntriesExactly(frame, levels, LevelTwoIds, FromLevel1(level1), symbol, name);
    EntriesExactly(frame, levels, LevelThreeIds, FromLevels(level1, level2), symbol, name);
  }

  /** With the default roster every level completes. */
  lemma DefaultRosterCompletes(frame: PromptFrame, p: Prompts, symbol: string, name: string)
    ensures FullOutcome(frame, DefaultConfig(p), symbol, name).Done?
  {
    var levels := DefaultConfig(p).levels;
    var all := LevelOneIds + LevelTwoIds + LevelThreeIds;
    DefaultAllAgents(p);
    DefaultIds(p);
    forall k | 0 <= k < |all| ensures FindAgent(levels, all[k]).Some? {
      var agents := AllAgents(levels);
      assert agents[k].id == all[k];
      FirstWithIdExactly(agents, all[k]);
    }
    FullOutcomeMissing(frame, DefaultConfig(p), symbol, name);
  }
}
