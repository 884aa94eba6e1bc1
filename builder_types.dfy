/** The agent builder's records (src/app/builder/types.ts): tool parameters,
    tools, agent configurations, the voice and parameter-type tables, and the
    constructors of empty records. Random ids and clock readings are
    parameters. */
module BuilderTypes {
  import opened Lists

  datatype ParameterType = StringType | NumberType | BooleanType | ObjectType | ArrayType

  /** The literal each parameter type stands for in the configuration. */
  function TypeName(t: ParameterType): string {
    match t
    case StringType => "string"
    case NumberType => "number"
    case BooleanType => "boolean"
    case ObjectType => "object"
    case ArrayType => "array"
  }

  datatype ToolParameter = ToolParameter(
    name: string,
    paramType: ParameterType,
    description: string,
    required: bool,
    enumValues: Option<seq<string>>)

  datatype ToolConfig = ToolConfig(
    id: string,
    name: string,
    description: string,
    parameters: seq<ToolParameter>)

  datatype Voice = Sage | Alloy | Echo | Fable | Onyx | Shimmer

  /** The literal each voice stands for in the configuration. */
  function VoiceName(v: Voice): string {
    match v
    case Sage => "sage"
    case Alloy => "alloy"
    case Echo => "echo"
    case Fable => "fable"
    case Onyx => "onyx"
    case Shimmer => "shimmer"
  }

  datatype AgentConfig = AgentConfig(
    id: string,
    name: string,
    voice: Voice,
    handoffDescription: string,
    instructions: string,
    tools: seq<ToolConfig>,
    handoffs: seq<string>,  // ids of the agents this one may hand off to
    createdAt: string,
    updatedAt: string)

  /** The key every agent list of the builder is searched by. */
  function AgentId(a: AgentConfig): string {
    a.id
  }

  datatype VoiceOptionEntry = VoiceOptionEntry(value: Voice, labelText: string, description: string)

  const VoiceOptions: seq<VoiceOptionEntry> := [
    VoiceOptionEntry(Sage, "Sage", "Calm and wise"),
    VoiceOptionEntry(Alloy, "Alloy", "Neutral and balanced"),
    VoiceOptionEntry(Echo, "Echo", "Soft and reflective"),
    VoiceOptionEntry(Fable, "Fable", "Warm and narrative"),
    VoiceOptionEntry(Onyx, "Onyx", "Deep and authoritative"),
    VoiceOptionEntry(Shimmer, "Shimmer", "Bright and energetic")
  ]

  datatype ParameterTypeEntry = ParameterTypeEntry(value: ParameterType, labelText: string)

  const ParameterTypes: seq<ParameterTypeEntry> := [
    ParameterTypeEntry(StringType, "String"),
    ParameterTypeEntry(NumberType, "Number"),
    ParameterTypeEntry(BooleanType, "Boolean"),
    ParameterTypeEntry(ObjectType, "Object"),
    ParameterTypeEntry(ArrayType, "Array")
  ]

  /** The voice table offers every voice, each exactly once. */
  lemma VoiceOptionsListEachVoiceOnce(v: Voice)
    ensures exists i :: 0 <= i < |VoiceOptions| && VoiceOptions[i].value == v
    ensures forall i, j :: 0 <= i < j < |VoiceOptions| ==> VoiceOptions[i].value != VoiceOptions[j].value
  {
    match v
    case Sage => assert VoiceOptions[0].value == v;
    case Alloy => assert VoiceOptions[1].value == v;
    case Echo => assert VoiceOptions[2].value == v;
    case Fable => assert VoiceOptions[3].value == v;
    case Onyx => assert VoiceOptions[4].value == v;
    case Shimmer => assert VoiceOptions[5].value == v;
  }

  /** The parameter-type table offers every parameter type, each exactly once. */
  lemma ParameterTypesListEachTypeOnce(t: ParameterType)
    ensures exists i :: 0 <= i < |ParameterTypes| && ParameterTypes[i].value == t
    ensures forall i, j :: 0 <= i < j < |ParameterTypes| ==> ParameterTypes[i].value != ParameterTypes[j].value
  {
    match t
    case StringType => assert ParameterTypes[0].value == t;
    case NumberType => assert ParameterTypes[1].value == t;
    case BooleanType => assert ParameterTypes[2].value == t;
    case ObjectType => assert ParameterTypes[3].value == t;
    case ArrayType => assert ParameterTypes[4].value == t;
  }

  /** A fresh agent: nameless, voice `sage`, no text, no tools, no handoffs.
      The clock is read twice, once for each timestamp, so the two readings
      are separate parameters and may differ. */
  function CreateEmptyAgent(id: string, createdNow: string, updatedNow: string): (a: AgentConfig)
    ensures a.id == id && a.name == "" && a.voice == Sage
    ensures a.handoffDescription == "" && a.instructions == ""
    ensures a.tools == [] && a.handoffs == []
    ensures a.createdAt == createdNow && a.updatedAt == updatedNow
  {
    AgentConfig(id, "", Sage, "", "", [], [], createdNow, updatedNow)
  }

  /** A fresh tool: nameless, undescribed, without parameters. */
  function CreateEmptyTool(id: string): (t: ToolConfig)
    ensures t.id == id && t.name == "" && t.description == "" && t.parameters == []
  {
    ToolConfig(id, "", "", [])
  }

  /** A fresh parameter: an optional, nameless, undescribed string. */
  function CreateEmptyParameter(): (p: ToolParameter)
    ensures p.name == "" && p.paramType == StringType && p.description == ""
    ensures !p.required && p.enumValues.None?
  {
    ToolParameter("", StringType, "", false, None)
  }
}
