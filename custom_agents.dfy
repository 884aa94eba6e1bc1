/** The custom scenarios the voice app offers (src/app/hooks/useCustomAgents.ts):
    every stored builder agent becomes a one-agent scenario under the key
    `custom_<name>`. Reading browser storage and parsing JSON are modelled by
    the `StoredValue` the loader is given. */
module CustomAgents {
  import opened Lists
  import opened BuilderTypes
  import opened AgentConverter

  /** The storage key the builder writes its agent list under. */
  const StorageKey := "voice-agent-builder-agents"

  const CustomPrefix := "custom_"

  /** What reading the builder's storage entry produced. */
  datatype StoredValue =
    | Missing                            // no entry, or the empty string
    | Unparsable                         // reading or converting it threw
    | Configs(configs: seq<AgentConfig>)

  /** The scenario key of a stored agent. */
  function ScenarioKey(config: AgentConfig): string {
    CustomPrefix + config.name
  }

  /** Agents with different names get different scenario keys. */
  lemma ScenarioKeyInjective(a: AgentConfig, b: AgentConfig)
    ensures ScenarioKey(a) == ScenarioKey(b) ==> a.name == b.name
  {
    assert ScenarioKey(a)[|CustomPrefix|..] == a.name;
    assert ScenarioKey(b)[|CustomPrefix|..] == b.name;
  }

  /** The scenario table after every config has been written into it, in order. */
  function AgentSetsOf(configs: seq<AgentConfig>): map<string, seq<RealtimeAgent>> {
    if configs == [] then map[]
    else AgentSetsOf(configs[..|configs| - 1])[ScenarioKey(configs[|configs| - 1]) :=
                                                [ConvertToRealtimeAgent(configs[|configs| - 1])]]
  }

  /** The local `convertToRealtimeAgent`: the same conversion as the builder's
      converter, tool by tool, with no handoffs. */
  method ConvertCustomAgent(config: AgentConfig) returns (agent: RealtimeAgent)
    ensures agent == ConvertToRealtimeAgent(config)
    ensures agent.handoffs == []
  {
    var tools: seq<RealtimeTool> := [];
    for i := 0 to |config.tools|
      invariant |tools| == i
      invariant forall k :: 0 <= k < i ==> tools[k] == ConvertTool(config.tools[k])
    {
      var toolConfig := config.tools[i];
      var parameters := BuildParameters(toolConfig.parameters);
      tools := tools + [RealtimeTool(toolConfig.name, toolConfig.description, parameters)];
    }
    agent := RealtimeAgent(config.name, config.voice, config.handoffDescription, config.instructions, tools, []);
  }

  class CustomAgentSets {
    var customAgentSets: map<string, seq<RealtimeAgent>>
    var isLoaded: bool

    constructor ()
      ensures customAgentSets == map[] && !isLoaded
    {
      customAgentSets := map[];
      isLoaded := false;
    }

    /** `loadAgents`: with configs, the table is rebuilt from them; when the
        entry is missing or fails, the table stays as it was. Either way the
        hook reports itself loaded. */
    method LoadAgents(stored: StoredValue)
      modifies this
      ensures stored.Configs? ==> customAgentSets == AgentSetsOf(stored.configs)
      ensures !stored.Configs? ==> customAgentSets == old(customAgentSets)
      ensures isLoaded
    {
      if stored.Configs? {
        var configs := stored.configs;
        var agentSets: map<string, seq<RealtimeAgent>> := map[];
        for i := 0 to |configs|
          invariant agentSets == AgentSetsOf(configs[..i])
        {
          assert configs[..i + 1][..i] == configs[..i];
          var agent := ConvertCustomAgent(configs[i]);
          agentSets := agentSets[CustomPrefix + configs[i].name := [agent]];
        }
        assert configs[..|configs|] == configs;
        customAgentSets := agentSets;
      }
      isLoaded := true;
    }

    /** The `storage` listener: only a change of the builder's key reloads. */
    method HandleStorageChange(changedKey: Option<string>, stored: StoredValue)
      modifies this
      ensures changedKey == Some(StorageKey) && stored.Configs? ==> customAgentSets == AgentSetsOf(stored.configs)
      ensures changedKey != Some(StorageKey) || !stored.Configs? ==> customAgentSets == old(customAgentSets)
      ensures changedKey == Some(StorageKey) ==> isLoaded
      ensures changedKey != Some(StorageKey) ==> isLoaded == old(isLoaded)
    {
      if changedKey == Some(StorageKey) {
        LoadAgents(stored);
      }
    }
  }

  /** The table has a key `custom_<name>` for each stored agent name, and no other. */
  lemma {:induction false} AgentSetsKeys(configs: seq<AgentConfig>, key: string)
    ensures key in AgentSetsOf(configs) <==> exists i :: 0 <= i < |configs| && ScenarioKey(configs[i]) == key
  {
    if configs != [] {
      var front := configs[..|configs| - 1];
      AgentSetsKeys(front, key);
      if exists i :: 0 <= i < |configs| && ScenarioKey(configs[i]) == key {
        var i :| 0 <= i < |configs| && ScenarioKey(configs[i]) == key;
        if i < |front| {
          assert front[i] == configs[i];
        }
      }
      if key in AgentSetsOf(front) {
        var i :| 0 <= i < |front| && ScenarioKey(front[i]) == key;
        assert configs[i] == front[i];
      }
    }
  }

  /** Each scenario holds exactly one agent: the conversion of the last stored
      agent with that name. */
  lemma {:induction false} AgentSetsLastWins(configs: seq<AgentConfig>, i: nat)
    requires i < |configs|
    requires forall j :: i < j < |configs| ==> configs[j].name != configs[i].name
    ensures ScenarioKey(configs[i]) in AgentSetsOf(configs)
    ensures AgentSetsOf(configs)[ScenarioKey(configs[i])] == [ConvertToRealtimeAgent(configs[i])]
  {
    if i < |configs| - 1 {
      var front := configs[..|configs| - 1];
      assert front[i] == configs[i];
      ScenarioKeyInjective(configs[|configs| - 1], configs[i]);
      AgentSetsLastWins(front, i);
    }
  }

  /** Every scenario in the table is a one-agent list without handoffs. */
  lemma {:induction false} AgentSetsSingletons(configs: seq<AgentConfig>, key: string)
    requires key in AgentSetsOf(configs)
    ensures |AgentSetsOf(configs)[key]| == 1
    ensures AgentSetsOf(configs)[key][0].handoffs == []
  {
    var front := configs[..|configs| - 1];
    if ScenarioKey(configs[|configs| - 1]) != key {
      AgentSetsSingletons(front, key);
    }
  }
}
