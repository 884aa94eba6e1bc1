/** The builder's agent list (src/app/builder/hooks/useAgentStorage.ts):
    save (update in place or append), delete, lookup, and the merge step of
    an import. Reading and writing browser storage, JSON and files are not
    part of this model; the clock reading is a parameter. */
module AgentStorage {
  import opened Lists
  import opened BuilderTypes

  /** What parsing an import file produced. */
  datatype ImportPayload =
    | Unparsable                        // the text is not JSON, or the file could not be read
    | NotAnArray                        // JSON, but not an array
    | AgentArray(agents: seq<AgentConfig>)

  datatype ImportOutcome = Imported | Rejected

  /** The agent `saveAgent` stores: the argument with `updatedAt` set to `now`. */
  function Stamped(agent: AgentConfig, now: string): (r: AgentConfig)
    ensures r.updatedAt == now
    ensures r.(updatedAt := agent.updatedAt) == agent
  {
    agent.(updatedAt := now)
  }

  class AgentStore {
    var agents: seq<AgentConfig>
    var isLoaded: bool

    constructor ()
      ensures agents == [] && !isLoaded
    {
      agents := [];
      isLoaded := false;
    }

    /** `saveAgent`: the stamped agent replaces the first entry with its id,
        or is appended when no entry has that id. */
    method SaveAgent(agent: AgentConfig, now: string)
      modifies this
      ensures agents == Upsert(old(agents), AgentId, Stamped(agent, now))
      ensures isLoaded == old(isLoaded)
    {
      var existingIndex := IndexOfKey(agents, AgentId, agent.id);
      var updatedAgent := Stamped(agent, now);
      if existingIndex >= 0 {
        agents := agents[existingIndex := updatedAgent];
      } else {
        agents := agents + [updatedAgent];
      }
    }

    /** `deleteAgent`: keeps every entry whose id differs, in order. */
    method DeleteAgent(agentId: string)
      modifies this
      ensures agents == RemoveKey(old(agents), AgentId, agentId)
      ensures isLoaded == old(isLoaded)
    {
      agents := RemoveKey(agents, AgentId, agentId);
    }

    /** `getAgent`: the first entry with the id, if any. */
    function GetAgent(agentId: string): (r: Option<AgentConfig>)
      reads this
      ensures r.None? <==> forall j :: 0 <= j < |agents| ==> agents[j].id != agentId
      ensures r.Some? ==> r.value.id == agentId
      ensures r.Some? ==> exists j :: 0 <= j < |agents| && agents[j] == r.value &&
                            forall k :: 0 <= k < j ==> agents[k].id != agentId
    {
      FindByKey(agents, AgentId, agentId)
    }

    /** The merge step of `importAgents`: a payload that is not an array is
        rejected and nothing changes; otherwise the imported agents are folded
        in one by one, each replacing the entry with its id or being appended. */
    method ImportAgents(payload: ImportPayload) returns (outcome: ImportOutcome)
      modifies this
      ensures !payload.AgentArray? ==> outcome == Rejected && agents == old(agents)
      ensures payload.AgentArray? ==>
                outcome == Imported && agents == UpsertAll(old(agents), AgentId, payload.agents)
      ensures isLoaded == old(isLoaded)
    {
      if !payload.AgentArray? {
        return Rejected;
      }
      var imported := payload.agents;
      var merged := agents;
      for i := 0 to |imported|
        invariant merged == UpsertAll(old(agents), AgentId, imported[..i])
      {
        assert imported[..i + 1][..i] == imported[..i];
        var existingIndex := IndexOfKey(merged, AgentId, imported[i].id);
        if existingIndex >= 0 {
          merged := merged[existingIndex := imported[i]];
        } else {
          merged := merged + [imported[i]];
        }
      }
      assert imported[..|imported|] == imported;
      agents := merged;
      return Imported;
    }
  }

  /** After a save, looking the id up finds exactly the stamped agent. */
  lemma GetAfterSave(agents: seq<AgentConfig>, agent: AgentConfig, now: string)
    ensures FindByKey(Upsert(agents, AgentId, Stamped(agent, now)), AgentId, agent.id)
            == Some(Stamped(agent, now))
  {
    var x := Stamped(agent, now);
    var r := Upsert(agents, AgentId, x);
    var i := IndexOfKey(agents, AgentId, agent.id);
    if i >= 0 {
      assert r[i] == x;
      assert forall j :: 0 <= j < i ==> r[j] == agents[j];
      assert IndexOfKey(r, AgentId, agent.id) == i;
    } else {
      assert r == agents + [x];
      assert forall j :: 0 <= j < |agents| ==> AgentId(r[j]) != agent.id;
      assert AgentId(r[|agents|]) == agent.id;
      assert IndexOfKey(r, AgentId, agent.id) == |agents|;
    }
  }

  /** After a delete, looking the id up finds nothing, and deleting again changes nothing. */
  lemma GetAfterDelete(agents: seq<AgentConfig>, agentId: string)
    ensures FindByKey(RemoveKey(agents, AgentId, agentId), AgentId, agentId).None?
    ensures RemoveKey(RemoveKey(agents, AgentId, agentId), AgentId, agentId)
            == RemoveKey(agents, AgentId, agentId)
  {
    RemoveKeyAbsent(RemoveKey(agents, AgentId, agentId), AgentId, agentId);
  }

  /** Importing never moves an existing agent: every existing slot keeps its
      id, and every imported id is present afterwards. */
  lemma ImportKeepsPositions(agents: seq<AgentConfig>, imported: seq<AgentConfig>)
    ensures |agents| <= |UpsertAll(agents, AgentId, imported)| <= |agents| + |imported|
    ensures forall j :: 0 <= j < |agents| ==> UpsertAll(agents, AgentId, imported)[j].id == agents[j].id
    ensures forall a :: a in imported ==>
              exists j :: 0 <= j < |UpsertAll(agents, AgentId, imported)| &&
                          UpsertAll(agents, AgentId, imported)[j].id == a.id
  {
    UpsertAllKeepsKeys(agents, AgentId, imported);
    var r := UpsertAll(agents, AgentId, imported);
    assert forall j :: 0 <= j < |agents| ==> AgentId(r[j]) == AgentId(agents[j]);
    forall a | a in imported
      ensures exists j :: 0 <= j < |r| && r[j].id == a.id
    {
      var j :| 0 <= j < |r| && AgentId(r[j]) == AgentId(a);
    }
  }
}
