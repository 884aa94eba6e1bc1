/** The code preview of one agent (src/app/builder/components/PreviewPanel.tsx):
    the same module text the converter generates, except that an agent with
    handoffs gets a placeholder `handoffs` entry. */
module PreviewPanel {
  import opened Text
  import opened BuilderTypes
  import opened AgentConverter

  const HandoffsPlaceholder := "handoffs: [/* Add agent references here */],"
  const NoHandoffs := "handoffs: [],"

  /** The `handoffs` entry: the placeholder exactly when the agent has a handoff. */
  function HandoffsLine(agent: AgentConfig): (r: string)
    ensures r == HandoffsPlaceholder <==> |agent.handoffs| > 0
    ensures r == NoHandoffs <==> |agent.handoffs| == 0
  {
    if |agent.handoffs| > 0 then HandoffsPlaceholder else NoHandoffs
  }

  /** `generateCode`: it exports `{name}Agent` and a `{name}Scenario` that
      holds only that agent. */
  function GenerateCode(agent: AgentConfig): (r: string)
    ensures StartsWith(r, ExportHead(agent.name)) && EndsWith(r, ExportTail(agent.name))
  {
    AgentCodeTemplate(agent, HandoffsLine(agent))
  }

  /** Without handoffs, the preview is exactly the converter's generated code. */
  lemma PreviewMatchesConverter(agent: AgentConfig)
    requires agent.handoffs == []
    ensures GenerateCode(agent) == GenerateAgentCode(agent)
  {
  }
}
