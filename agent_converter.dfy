/** From builder configurations to runtime agents and to TypeScript source
    (src/app/builder/utils/agentConverter.ts): the parameter schema of each
    tool, the id-keyed conversion of a whole agent list, and the generated
    agent module. The runtime agent and tool objects the SDK builds are
    modelled as plain records. */
module AgentConverter {
  import opened Lists
  import opened Text
  import opened BuilderTypes

  /** One entry of a schema's `properties`. */
  datatype PropertySchema = PropertySchema(propType: string, description: string)

  /** The JSON-schema object a tool's `parameters` field holds. */
  datatype ParametersSchema = ParametersSchema(
    schemaType: string,
    properties: map<string, PropertySchema>,
    required: seq<string>,
    additionalProperties: bool)

  datatype RealtimeTool = RealtimeTool(name: string, description: string, parameters: ParametersSchema)

  datatype RealtimeAgent = RealtimeAgent(
    name: string,
    voice: Voice,
    handoffDescription: string,
    instructions: string,
    tools: seq<RealtimeTool>,
    handoffs: seq<RealtimeAgent>)

  function PropertyOf(p: ToolParameter): PropertySchema {
    PropertySchema(TypeName(p.paramType), p.description)
  }

  /** The `properties` object after every parameter has been written into it, in order. */
  function PropertiesOf(ps: seq<ToolParameter>): map<string, PropertySchema> {
    if ps == [] then map[]
    else PropertiesOf(ps[..|ps| - 1])[ps[|ps| - 1].name := PropertyOf(ps[|ps| - 1])]
  }

  /** The names pushed onto `required`: those of the required parameters, in order. */
  function RequiredOf(ps: seq<ToolParameter>): (r: seq<string>)
    ensures |r| <= |ps|
  {
    if ps == [] then []
    else RequiredOf(ps[..|ps| - 1]) + (if ps[|ps| - 1].required then [ps[|ps| - 1].name] else [])
  }

  /** The schema of a tool: always an object that admits no other properties. */
  function SchemaOf(ps: seq<ToolParameter>): (r: ParametersSchema)
    ensures r.schemaType == "object" && !r.additionalProperties
  {
    ParametersSchema("object", PropertiesOf(ps), RequiredOf(ps), false)
  }

  /** The `forEach` that fills `properties` and `required` for one tool. */
  method BuildParameters(parameters: seq<ToolParameter>) returns (schema: ParametersSchema)
    ensures schema == SchemaOf(parameters)
  {
    var properties: map<string, PropertySchema> := map[];
    var required: seq<string> := [];
    for i := 0 to |parameters|
      invariant properties == PropertiesOf(parameters[..i])
      invariant required == RequiredOf(parameters[..i])
    {
      assert parameters[..i + 1][..i] == parameters[..i];
      var param := parameters[i];
      properties := properties[param.name := PropertySchema(TypeName(param.paramType), param.description)];
      if param.required {
        required := required + [param.name];
      }
    }
    assert parameters[..|parameters|] == parameters;
    schema := ParametersSchema("object", properties, required, false);
  }

  /** The schema has one property per distinct parameter name. */
  lemma {:induction false} PropertiesKeys(ps: seq<ToolParameter>, k: string)
    ensures k in PropertiesOf(ps) <==> exists i :: 0 <= i < |ps| && ps[i].name == k
  {
    if ps != [] {
      var front := ps[..|ps| - 1];
      PropertiesKeys(front, k);
      if k in PropertiesOf(front) {
        var i :| 0 <= i < |front| && front[i].name == k;
        assert ps[i].name == k;
      }
      if exists i :: 0 <= i < |ps| && ps[i].name == k {
        var i :| 0 <= i < |ps| && ps[i].name == k;
        if i < |front| {
          assert front[i].name == k;
        }
      }
    }
  }

  /** A name's property comes from its last parameter: later duplicates overwrite. */
  lemma {:induction false} PropertiesLastWins(ps: seq<ToolParameter>, i: nat)
    requires i < |ps|
    requires forall j :: i < j < |ps| ==> ps[j].name != ps[i].name
    ensures ps[i].name in PropertiesOf(ps)
    ensures PropertiesOf(ps)[ps[i].name] == PropertyOf(ps[i])
  {
    if i < |ps| - 1 {
      var front := ps[..|ps| - 1];
      assert front[i] == ps[i];
      PropertiesLastWins(front, i);
    }
  }

  /** `required` distributes over concatenation: it keeps parameter order. */
  lemma {:induction false} RequiredOfConcat(a: seq<ToolParameter>, b: seq<ToolParameter>)
    ensures RequiredOf(a + b) == RequiredOf(a) + RequiredOf(b)
    decreases |b|
  {
    if b == [] {
      assert a + b == a;
    } else {
      var front := b[..|b| - 1];
      assert (a + b)[..|a + b| - 1] == a + front;
      RequiredOfConcat(a, front);
    }
  }

  /** `required` holds exactly the names of the required parameters. */
  lemma {:induction false} RequiredMembers(ps: seq<ToolParameter>, x: string)
    ensures x in RequiredOf(ps) <==> exists i :: 0 <= i < |ps| && ps[i].required && ps[i].name == x
  {
    if ps != [] {
      var front := ps[..|ps| - 1];
      RequiredMembers(front, x);
      if exists i :: 0 <= i < |ps| && ps[i].required && ps[i].name == x {
        var i :| 0 <= i < |ps| && ps[i].required && ps[i].name == x;
        if i < |front| {
          assert front[i] == ps[i];
        }
      }
      if x in RequiredOf(front) {
        var i :| 0 <= i < |front| && front[i].required && front[i].name == x;
        assert ps[i] == front[i];
      }
    }
  }

  /** A tool without parameters gets the empty object schema. */
  lemma EmptySchema()
    ensures SchemaOf([]) == ParametersSchema("object", map[], [], false)
  {
  }

  function ConvertTool(t: ToolConfig): RealtimeTool {
    RealtimeTool(t.name, t.description, SchemaOf(t.parameters))
  }

  /** `convertToRealtimeAgent`: the agent's fields carried over, one runtime
      tool per configured tool in order, and no handoffs. */
  function ConvertToRealtimeAgent(config: AgentConfig): (r: RealtimeAgent)
    ensures r.name == config.name && r.voice == config.voice
    ensures r.handoffDescription == config.handoffDescription && r.instructions == config.instructions
    ensures |r.tools| == |config.tools|
    ensures forall i :: 0 <= i < |r.tools| ==>
              r.tools[i].name == config.tools[i].name &&
              r.tools[i].description == config.tools[i].description &&
              r.tools[i].parameters == SchemaOf(config.tools[i].parameters)
    ensures r.handoffs == []
  {
    RealtimeAgent(config.name, config.voice, config.handoffDescription, config.instructions,
                  seq(|config.tools|, i requires 0 <= i < |config.tools| => ConvertTool(config.tools[i])),
                  [])
  }

  /** The insertion order of `agentMap`: each config id where it first occurs. */
  function IdOrder(configs: seq<AgentConfig>): seq<string> {
    if configs == [] then []
    else
      var order := IdOrder(configs[..|configs| - 1]);
      if configs[|configs| - 1].id in order then order else order + [configs[|configs| - 1].id]
  }

  /** The entries of `agentMap`: each id bound to the conversion of its last config. */
  function AgentMapOf(configs: seq<AgentConfig>): map<string, RealtimeAgent> {
    if configs == [] then map[]
    else AgentMapOf(configs[..|configs| - 1])[configs[|configs| - 1].id :=
                                               ConvertToRealtimeAgent(configs[|configs| - 1])]
  }

  /** The ids in the order and in the map are those of the configs. */
  lemma {:induction false} IdOrderMembers(configs: seq<AgentConfig>, x: string)
    ensures x in IdOrder(configs) <==> exists i :: 0 <= i < |configs| && configs[i].id == x
    ensures x in AgentMapOf(configs) <==> x in IdOrder(configs)
  {
    if configs != [] {
      var front := configs[..|configs| - 1];
      IdOrderMembers(front, x);
      if exists i :: 0 <= i < |configs| && configs[i].id == x {
        var i :| 0 <= i < |configs| && configs[i].id == x;
        if i < |front| {
          assert front[i] == configs[i];
        }
      }
      if x in IdOrder(front) {
        var i :| 0 <= i < |front| && front[i].id == x;
        assert configs[i] == front[i];
      }
    }
  }

  /** `Array.from(agentMap.values())`. */
  function ConvertedAgents(configs: seq<AgentConfig>): seq<RealtimeAgent> {
    var order := IdOrder(configs);
    var agentMap := AgentMapOf(configs);
    seq(|order|, j requires 0 <= j < |order| =>
      IdOrderMembers(configs, order[j]);
      agentMap[order[j]])
  }

  /** `convertAgentsWithHandoffs`: fills a `Map` keyed by config id (its
      entries and its insertion order), then lists its values. */
  method ConvertAgentsWithHandoffs(configs: seq<AgentConfig>) returns (agents: seq<RealtimeAgent>)
    ensures agents == ConvertedAgents(configs)
  {
    var agentMap: map<string, RealtimeAgent> := map[];
    var order: seq<string> := [];
    for i := 0 to |configs|
      invariant agentMap == AgentMapOf(configs[..i])
      invariant order == IdOrder(configs[..i])
    {
      assert configs[..i + 1][..i] == configs[..i];
      IdOrderMembers(configs[..i], configs[i].id);
      var agent := ConvertToRealtimeAgent(configs[i]);
      if configs[i].id !in agentMap {
        order := order + [configs[i].id];
      }
      agentMap := agentMap[configs[i].id := agent];
    }
    assert configs[..|configs|] == configs;
    agents := [];
    for j := 0 to |order|
      invariant |agents| == j
      invariant forall k :: 0 <= k < j ==> agents[k] == ConvertedAgents(configs)[k]
    {
      IdOrderMembers(configs, order[j]);
      agents := agents + [agentMap[order[j]]];
    }
  }

  /** The order lists every id once, each at the position of its first config. */
  lemma {:induction false} IdOrderFirstOccurrence(configs: seq<AgentConfig>)
    ensures forall a, b :: 0 <= a < b < |IdOrder(configs)| ==> IdOrder(configs)[a] != IdOrder(configs)[b]
    ensures forall a, b :: 0 <= a < b < |IdOrder(configs)| ==>
              0 <= IndexOfKey(configs, AgentId, IdOrder(configs)[a]) <
                   IndexOfKey(configs, AgentId, IdOrder(configs)[b])
  {
    if configs != [] {
      var front := configs[..|configs| - 1];
      var last := configs[|configs| - 1];
      var o := IdOrder(front);
      IdOrderFirstOccurrence(front);
      assert configs == front + [last];
      forall a | 0 <= a < |o|
        ensures 0 <= IndexOfKey(configs, AgentId, o[a]) == IndexOfKey(front, AgentId, o[a]) < |front|
      {
        IdOrderMembers(front, o[a]);
        IndexOfKeyAppend(front, AgentId, last, o[a]);
      }
      var r := IdOrder(configs);
      if last.id !in o {
        IdOrderMembers(front, last.id);
        IndexOfKeyAppend(front, AgentId, last, last.id);
        assert r == o + [last.id];
        assert forall a :: 0 <= a < |o| ==> r[a] == o[a];
        assert IndexOfKey(configs, AgentId, r[|o|]) == |front|;
      } else {
        assert r == o;
      }
      forall a, b | 0 <= a < b < |r|
        ensures 0 <= IndexOfKey(configs, AgentId, r[a]) < IndexOfKey(configs, AgentId, r[b])
      {
        if b < |o| {
          assert IndexOfKey(front, AgentId, o[a]) < IndexOfKey(front, AgentId, o[b]);
        }
      }
    } else {
      assert IdOrder(configs) == [];
    }
  }

  /** The agent listed for an id converts the last config with that id. */
  lemma {:induction false} AgentMapLastWins(configs: seq<AgentConfig>, x: string)
    requires x in AgentMapOf(configs)
    ensures exists i :: 0 <= i < |configs| && configs[i].id == x &&
              AgentMapOf(configs)[x] == ConvertToRealtimeAgent(configs[i]) &&
              forall k :: i < k < |configs| ==> configs[k].id != x
  {
    var front := configs[..|configs| - 1];
    var last := configs[|configs| - 1];
    if last.id != x {
      AgentMapLastWins(front, x);
      var i :| 0 <= i < |front| && front[i].id == x &&
               AgentMapOf(front)[x] == ConvertToRealtimeAgent(front[i]) &&
               forall k :: i < k < |front| ==> front[k].id != x;
      assert configs[i] == front[i];
      assert forall k :: i < k < |configs| ==> configs[k].id != x by {
        forall k | i < k < |configs|
          ensures configs[k].id != x
        {
          if k < |front| {
            assert configs[k] == front[k];
          }
        }
      }
    }
  }

  /** `convertAgentsWithHandoffs` returns one agent per distinct config id, in
      first-occurrence order, each converted from the last config with its id. */
  lemma ConvertedAgentsShape(configs: seq<AgentConfig>)
    ensures |ConvertedAgents(configs)| == |IdOrder(configs)|
    ensures forall x :: x in IdOrder(configs) <==> exists i :: 0 <= i < |configs| && configs[i].id == x
    ensures forall j :: 0 <= j < |IdOrder(configs)| ==>
              exists i :: 0 <= i < |configs| && configs[i].id == IdOrder(configs)[j] &&
                ConvertedAgents(configs)[j] == ConvertToRealtimeAgent(configs[i]) &&
                forall k :: i < k < |configs| ==> configs[k].id != IdOrder(configs)[j]
  {
    var order := IdOrder(configs);
    forall x
      ensures x in order <==> exists i :: 0 <= i < |configs| && configs[i].id == x
    {
      IdOrderMembers(configs, x);
    }
    forall j | 0 <= j < |order|
      ensures exists i :: 0 <= i < |configs| && configs[i].id == order[j] &&
                ConvertedAgents(configs)[j] == ConvertToRealtimeAgent(configs[i]) &&
                forall k :: i < k < |configs| ==> configs[k].id != order[j]
    {
      IdOrderMembers(configs, order[j]);
      AgentMapLastWins(configs, order[j]);
    }
  }

  // ---------------------------------------------------------------- code text

  /** `s.replace(/'/g, "\\'")`: a backslash before every single quote. */
  function EscapeQuotes(s: string): (r: string)
    ensures |r| >= |s|
    ensures r == [] || r[0] != '\''
  {
    if s == [] then []
    else (if s[0] == '\'' then "\\'" else [s[0]]) + EscapeQuotes(s[1..])
  }

  /** Reads `\'` back as `'` and leaves every other character alone. */
  function UnescapeQuotes(s: string): string
    decreases |s|
  {
    if |s| >= 2 && s[0] == '\\' && s[1] == '\'' then "'" + UnescapeQuotes(s[2..])
    else if s == [] then []
    else [s[0]] + UnescapeQuotes(s[1..])
  }

  /** Every single quote is preceded by a backslash. */
  predicate QuotesEscaped(s: string) {
    forall i :: 0 <= i < |s| && s[i] == '\'' ==> 0 < i && s[i - 1] == '\\'
  }

  /** The escaped text has every quote escaped, and unescaping gives the original back. */
  lemma {:induction false} EscapeQuotesCorrect(s: string)
    ensures QuotesEscaped(EscapeQuotes(s))
    ensures UnescapeQuotes(EscapeQuotes(s)) == s
  {
    if s != [] {
      EscapeQuotesCorrect(s[1..]);
      var rest := EscapeQuotes(s[1..]);
      var r := EscapeQuotes(s);
      if s[0] == '\'' {
        assert r == "\\'" + rest;
        assert r[2..] == rest;
        forall i | 0 <= i < |r| && r[i] == '\''
          ensures 0 < i && r[i - 1] == '\\'
        {
          if i >= 3 {
            assert r[i] == rest[i - 2] && r[i - 1] == rest[i - 3];
          }
        }
      } else {
        assert r == [s[0]] + rest;
        assert r[1..] == rest;
        forall i | 0 <= i < |r| && r[i] == '\''
          ensures 0 < i && r[i - 1] == '\\'
        {
          if i >= 2 {
            assert r[i] == rest[i - 1] && r[i - 1] == rest[i - 2];
          }
        }
        assert s == [s[0]] + s[1..];
      }
    }
  }

  /** A text without quotes is written as it is. */
  lemma {:induction false} EscapeQuotesNoQuote(s: string)
    requires '\'' !in s
    ensures EscapeQuotes(s) == s
  {
    if s != [] {
      EscapeQuotesNoQuote(s[1..]);
      assert s == [s[0]] + s[1..];
    }
  }

  const EmptyParamsCode := "{\n        type: 'object',\n        properties: {},\n        required: [],\n        additionalProperties: false\n      }"

  /** One entry of the generated `properties` object. */
  function ParamCode(p: ToolParameter): string {
    "          " + p.name + ": {\n            type: '" + TypeName(p.paramType) +
    "',\n            description: '" + EscapeQuotes(p.description) + "'\n          }"
  }

  /** The generated `properties` entries, one per parameter, in order. */
  function ParamCodes(ps: seq<ToolParameter>): seq<string>
  {
    seq(|ps|, i requires 0 <= i < |ps| => ParamCode(ps[i]))
  }

  function QuoteAll(names: seq<string>): (r: seq<string>)
    ensures |r| == |names| && forall i :: 0 <= i < |names| ==> r[i] == "'" + names[i] + "'"
  {
    if names == [] then [] else ["'" + names[0] + "'"] + QuoteAll(names[1..])
  }

  /** The generated `required` array: the quoted names of the required parameters. */
  function RequiredCode(ps: seq<ToolParameter>): string {
    "[" + Join(QuoteAll(RequiredOf(ps)), ", ") + "]"
  }

  /** The generated `parameters` object of a tool. */
  function ParamsCode(ps: seq<ToolParameter>): string {
    if |ps| > 0 then
      "{\n        type: 'object',\n        properties: {\n" + Join(ParamCodes(ps), ",\n") +
      "\n        },\n        required: " + RequiredCode(ps) + ",\n        additionalProperties: false\n      }"
    else EmptyParamsCode
  }

  /** The generated `tool({...})` call. */
  function ToolCode(t: ToolConfig): string {
    "    tool({\n      name: '" + t.name + "',\n      description: '" + EscapeQuotes(t.description) +
    "',\n      parameters: " + ParamsCode(t.parameters) +
    ",\n      execute: async (input: any) => {\n        // TODO: Implement tool logic\n        return { success: true };\n      }\n    })"
  }

  /** The generated tool entries, one per tool, in order. */
  function ToolCodes(ts: seq<ToolConfig>): seq<string>
  {
    seq(|ts|, i requires 0 <= i < |ts| => ToolCode(ts[i]))
  }

  const ImportLine := "import { RealtimeAgent, tool } from '@openai/agents/realtime';\n"

  function ExportHead(name: string): string {
    ImportLine + "\nexport const " + name + "Agent = new RealtimeAgent({\n"
  }

  function ExportTail(name: string): string {
    "export const " + name + "Scenario = [" + name + "Agent];\nexport default " + name + "Scenario;\n"
  }

  /** The agent module text with the given `handoffs` entry: it opens with
      the import and the `{name}Agent` export, and closes with the
      `{name}Scenario` export holding only that agent. */
  function AgentCodeTemplate(config: AgentConfig, handoffsCode: string): (r: string)
    ensures StartsWith(r, ExportHead(config.name))
    ensures EndsWith(r, ExportTail(config.name))
  {
    var head := ExportHead(config.name);
    var body := AgentBody(config, handoffsCode);
    var tail := ExportTail(config.name);
    ConcatEnds(head, body, tail);
    head + body + tail
  }

  /** The agent's fields, its tools and the `handoffs` entry. */
  function AgentBody(config: AgentConfig, handoffsCode: string): string {
    "  name: '" + config.name + "',\n  voice: '" + VoiceName(config.voice) +
    "',\n  handoffDescription: '" + EscapeQuotes(config.handoffDescription) +
    "',\n  instructions: `\n" + config.instructions + "\n`,\n  tools: [\n" +
    Join(ToolCodes(config.tools), ",\n") + "\n  ],\n  " + handoffsCode + "\n});\n\n"
  }

  /** `generateAgentCode`: the template with an empty `handoffs` array. */
  function GenerateAgentCode(config: AgentConfig): (r: string)
    ensures StartsWith(r, ExportHead(config.name)) && EndsWith(r, ExportTail(config.name))
  {
    AgentCodeTemplate(config, "handoffs: [],")
  }

  /** A tool without parameters is written with the empty schema. */
  lemma EmptyParamsCodeForNoParameters(t: ToolConfig)
    requires t.parameters == []
    ensures ParamsCode(t.parameters) == EmptyParamsCode
  {
  }

  /** The index of the first single quote in `s`, or `|s|` when there is none. */
  function QuoteIndex(s: string): (k: nat)
    ensures k <= |s| && (k < |s| ==> s[k] == '\'')
    ensures forall i :: 0 <= i < k ==> s[i] != '\''
  {
    if s == [] || s[0] == '\'' then 0
    else
      var k := 1 + QuoteIndex(s[1..]);
      assert forall i :: 1 <= i < k ==> s[i] == s[1..][i - 1];
      k
  }

  /** Reads a list written as `'a', 'b', …` back into its names: each name
      runs from an opening quote to the next quote, and the entries are
      separated by `, `. */
  function UnquoteList(s: string): seq<string>
    decreases |s|
  {
    if |s| < 2 || s[0] != '\'' then []
    else
      var k := 1 + QuoteIndex(s[1..]);
      if k >= |s| then []
      else if |s| >= k + 3 && s[k + 1..k + 3] == ", " then [s[1..k]] + UnquoteList(s[k + 3..])
      else [s[1..k]]
  }

  /** In a quoted entry followed by anything, the closing quote is the first. */
  lemma QuoteIndexOfEntry(n: string, rest: string)
    requires '\'' !in n
    ensures QuoteIndex(n + "'" + rest) == |n|
  {
    var s := n + "'" + rest;
    assert s[|n|] == '\'' && forall i :: 0 <= i < |n| ==> s[i] == n[i];
  }

  /** One quoted entry reads back as its name, with the rest of the list
      read after the separator. */
  lemma UnquoteEntry(n: string, rest: string)
    requires '\'' !in n
    ensures UnquoteList("'" + n + "'") == [n]
    ensures UnquoteList("'" + n + "'" + ", " + rest) == [n] + UnquoteList(rest)
  {
    var q := "'" + n + "'";
    assert q[1..] == n + "'" + "";
    QuoteIndexOfEntry(n, "");
    assert q[1..1 + |n|] == n;
    var s := q + ", " + rest;
    assert s[1..] == n + "'" + (", " + rest);
    QuoteIndexOfEntry(n, ", " + rest);
    var k := 1 + |n|;
    assert s[1..k] == n;
    assert s[k + 1..k + 3] == ", ";
    assert s[k + 3..] == rest;
  }

  /** Quoting and joining with `, ` reads back as the names, as long as no
      name contains a quote. */
  lemma {:induction false} UnquoteQuoteAll(names: seq<string>)
    requires forall i :: 0 <= i < |names| ==> '\'' !in names[i]
    ensures UnquoteList(Join(QuoteAll(names), ", ")) == names
  {
    if names != [] {
      var n := names[0];
      var quoted := QuoteAll(names);
      assert quoted[0] == "'" + n + "'";
      if |names| == 1 {
        assert Join(quoted, ", ") == "'" + n + "'";
        UnquoteEntry(n, "");
      } else {
        assert quoted[1..] == QuoteAll(names[1..]);
        var rest := Join(QuoteAll(names[1..]), ", ");
        assert Join(quoted, ", ") == "'" + n + "'" + ", " + rest;
        UnquoteEntry(n, rest);
        assert forall i :: 0 <= i < |names[1..]| ==> names[1..][i] == names[i + 1];
        UnquoteQuoteAll(names[1..]);
      }
    }
  }

  /** The generated `required` array is bracketed, and its text reads back as
      the names of the required parameters, in order, as long as no name
      contains a quote. */
  lemma RequiredCodeReadsBack(ps: seq<ToolParameter>)
    requires forall i :: 0 <= i < |ps| ==> '\'' !in ps[i].name
    ensures var code := RequiredCode(ps);
            |code| >= 2 && code[0] == '[' && code[|code| - 1] == ']' &&
            UnquoteList(code[1..|code| - 1]) == RequiredOf(ps)
  {
    var names := RequiredOf(ps);
    forall i | 0 <= i < |names|
      ensures '\'' !in names[i]
    {
      RequiredMembers(ps, names[i]);
    }
    UnquoteQuoteAll(names);
    var code := RequiredCode(ps);
    assert code[1..|code| - 1] == Join(QuoteAll(names), ", ");
  }
}
