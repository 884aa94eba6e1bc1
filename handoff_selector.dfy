/** The handoff picker (src/app/builder/components/HandoffSelector.tsx):
    toggling an agent id in the selection, the selected test, and the name the
    handoff-flow strip shows for each selected id. */
module HandoffSelector {
  import opened Lists
  import opened BuilderTypes

  /** `toggleHandoff`: a selected id is removed wherever it occurs; an
      unselected one is appended. Other ids keep their order. */
  function ToggleHandoff(selected: seq<string>, agentId: string): (r: seq<string>)
    ensures agentId in selected ==> agentId !in r && |r| < |selected|
    ensures agentId !in selected ==> r == selected + [agentId]
    ensures forall x :: x != agentId ==> (x in r <==> x in selected)
    ensures Remove(r, agentId) == Remove(selected, agentId)
  {
    if agentId in selected then
      var r := Remove(selected, agentId);
      RemoveShrinks(selected, agentId);
      RemoveAbsent(r, agentId);
      r
    else
      var r := selected + [agentId];
      RemoveConcat(selected, [agentId], agentId);
      assert Remove([agentId], agentId) == [];
      r
  }

  /** Removing an element that occurs shortens the sequence. */
  lemma {:induction false} RemoveShrinks(s: seq<string>, x: string)
    requires x in s
    ensures |Remove(s, x)| < |s|
  {
    if s[0] != x {
      RemoveShrinks(s[1..], x);
    }
  }

  /** Whether the card of `agent` shows as selected. */
  predicate IsSelected(selected: seq<string>, agent: AgentConfig) {
    agent.id in selected
  }

  /** Toggling an agent flips its own selected state and no one else's. */
  lemma ToggleFlipsSelection(selected: seq<string>, agent: AgentConfig, other: AgentConfig)
    ensures IsSelected(ToggleHandoff(selected, agent.id), agent) <==> !IsSelected(selected, agent)
    ensures other.id != agent.id ==>
              (IsSelected(ToggleHandoff(selected, agent.id), other) <==> IsSelected(selected, other))
  {
  }

  /** Toggling an unselected id twice restores the selection. */
  lemma {:induction false} ToggleTwiceRestores(selected: seq<string>, agentId: string)
    requires agentId !in selected
    ensures ToggleHandoff(ToggleHandoff(selected, agentId), agentId) == selected
  {
    RemoveConcat(selected, [agentId], agentId);
    RemoveAbsent(selected, agentId);
    assert Remove([agentId], agentId) == [];
  }

  /** The name shown for a selected id: the first agent with that id, or
      "Unknown" when there is none or its name is empty. */
  function FlowLabel(availableAgents: seq<AgentConfig>, handoffId: string): (r: string)
    ensures (forall j :: 0 <= j < |availableAgents| ==> availableAgents[j].id != handoffId) ==> r == "Unknown"
    ensures r != "Unknown" ==>
              exists i :: 0 <= i < |availableAgents| && availableAgents[i].id == handoffId &&
                          availableAgents[i].name == r && r != "" &&
                          forall j :: 0 <= j < i ==> availableAgents[j].id != handoffId
  {
    match FindByKey(availableAgents, AgentId, handoffId)
    case None => "Unknown"
    case Some(agent) => if agent.name != "" then agent.name else "Unknown"
  }

  /** An id whose first matching agent has a name shows that name. */
  lemma FlowLabelOfNamedAgent(availableAgents: seq<AgentConfig>, i: nat)
    requires i < |availableAgents| && availableAgents[i].name != ""
    requires forall j :: 0 <= j < i ==> availableAgents[j].id != availableAgents[i].id
    ensures FlowLabel(availableAgents, availableAgents[i].id) == availableAgents[i].name
  {
    var k := IndexOfKey(availableAgents, AgentId, availableAgents[i].id);
    assert k == i;
  }
}
