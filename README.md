# VoiceAgent core, modelled in Dafny

VoiceAgent is a browser app for talking to a realtime voice model. It has two halves:

- **The Agent Builder.** Users create agent configurations: a name, a voice, instructions, tools with typed parameters, and handoffs to other agents. The builder validates these configurations, stores them, and previews them as TypeScript code.
- **The voice page.** It offers built-in scenarios plus one custom scenario per stored builder agent. It then runs a realtime session with the chosen scenario:
  - the connect and disconnect flow;
  - the turn-detection update and an optional greeting;
  - push-to-talk;
  - text messages;
  - the latch that suppresses the greeting after an agent handoff;
  - the mute sync.

This project models those cores and proves what they promise. The modules follow the source files:

| module | file | source |
|---|---|---|
| `Lists` | lists.dfy | the `findIndex` / `find` / `filter` / replace-or-push patterns the source writes at each use |
| `Text` | text.dfy | `trim`, `startsWith`, `endsWith`, `replace`, `join`, decimal numerals |
| `BuilderTypes` | builder_types.dfy | src/app/builder/types.ts |
| `AgentStorage` | agent_storage.dfy | src/app/builder/hooks/useAgentStorage.ts |
| `AgentForm` | agent_form.dfy | src/app/builder/components/AgentForm.tsx |
| `ToolBuilder` | tool_builder.dfy | src/app/builder/components/ToolBuilder.tsx |
| `HandoffSelector` | handoff_selector.dfy | src/app/builder/components/HandoffSelector.tsx |
| `AgentConverter` | agent_converter.dfy | src/app/builder/utils/agentConverter.ts |
| `PreviewPanel` | preview_panel.dfy | src/app/builder/components/PreviewPanel.tsx |
| `CustomAgents` | custom_agents.dfy | src/app/hooks/useCustomAgents.ts |
| `Transcript` | transcript.dfy | src/app/components/Transcript.tsx |
| `Session` | session.dfy | src/app/App.tsx |

Where the source is imperative, the model is a class whose methods update fields. This covers:

- the agent store;
- the form's agent and error table;
- the custom scenario table;
- the transcript's remembered items;
- the session controller.

In-place array work stays on arrays: the transcript sort, and the splice/unshift reorder of the initial agents. Each method is tied by its `ensures` to a specification function, and the properties are proved about that function. The pure parts are datatypes and functions. These are the patch merges, the schema and code generation, the validation table and the display rules.

The session controller never talks to the network. Each call it makes on the realtime session (`connect`, `disconnect`, `sendEvent`, `sendUserText`, `interrupt`, `mute`) is appended to the log `calls`. Each call on the transcript store (`addTranscriptMessage`, `addTranscriptBreadcrumb`) is appended to `transcript`. Outside effects the source waits on appear as method parameters:

- the ephemeral-key fetch, as a `CredentialOutcome`;
- whether the SDK `connect` throws;
- the random uuid;
- the SDK's status and handoff callbacks.

React effects are separate methods. The host calls them when their dependencies change.

One consequence of the source is stated as a lemma, `Session.BuiltInSetNotConnectable`. The connect step only knows the SDK scenario table (`simpleHandoff`, `customerServiceRetail`, `chatSupervisor`, plus the custom ones). The picker's built-in sets are `customerSupport` and `personalCoach`, and `personalCoach` is the default set. Neither key is in that table, so selecting a built-in set never connects unless a custom scenario of the same key exists. Key types differ by source:

- Agent ids and the validation table use string keys in the source. The model uses a datatype of error keys for the table, and `AgentForm.KeyTextInjective` shows that the source's key strings are distinct.
- `properties` in a tool schema is a string-keyed map, as in the source.

## Model

| member | source | states |
|---|---|---|
| Lists.IndexOfKey | src/app/builder/hooks/useAgentStorage.ts:41 | `findIndex` by key: -1 exactly when no element has the key, otherwise the first index that has it |
| Lists.FindByKey | src/app/builder/hooks/useAgentStorage.ts:60-62 | `find` by key: none exactly when no element has the key, otherwise the first element that has it |
| Lists.Upsert | src/app/builder/hooks/useAgentStorage.ts:41-52 | replaces the first element with the key of `x` (length kept) or appends `x` when no element has it |
| Lists.RemoveKey | src/app/builder/hooks/useAgentStorage.ts:56-58 | `filter` by key: keeps exactly the elements whose key differs, never grows |
| Lists.Remove | src/app/builder/components/HandoffSelector.tsx:15 | `filter(id => id !== x)`: keeps exactly the elements different from `x` |
| Lists.RemoveAt | src/app/builder/components/AgentForm.tsx:69-73 | `filter((_, i) => i !== index)`: one element fewer, the others shifted in order; an out-of-range index changes nothing |
| Lists.RemoveKeyConcat | src/app/builder/hooks/useAgentStorage.ts:56-58 | filtering distributes over concatenation |
| Lists.RemoveConcat | src/app/builder/components/HandoffSelector.tsx:15 | removing an id distributes over concatenation |
| Lists.UpsertKeepsKeys | src/app/builder/hooks/useAgentStorage.ts:41-52 | after a save, every earlier key is still at its position and the saved key is present |
| Lists.UpsertAllKeepsKeys | src/app/builder/hooks/useAgentStorage.ts:92-103 | after the import merge, every earlier key keeps its position and every imported key is present |
| Lists.UpsertAll | src/app/builder/hooks/useAgentStorage.ts:92-103 | the import merge: `Upsert` of each imported element in turn, first element first; its effect on keys is stated by UpsertAllKeepsKeys |
| Lists.IndexOfKeyAppend | src/app/builder/hooks/useAgentStorage.ts:95-100 | appending keeps the first index of a present key, and a new key is found at the old length |
| Text.TrimStart | src/app/builder/components/AgentForm.tsx:27 | drops exactly the leading white space: the result is a suffix that starts with a non-space character or is empty |
| Text.TrimEnd | src/app/builder/components/AgentForm.tsx:27 | drops exactly the trailing white space: the result is a prefix that ends with a non-space character or is empty |
| Text.Trim | src/app/builder/components/AgentForm.tsx:27 | `trim()`: the left trim, then the right trim; empty exactly when the text is blank (TrimIsEmptyIffBlank) |
| Text.TrimStartIsEmptyIffBlank | src/app/builder/components/AgentForm.tsx:27 | the left trim is empty exactly when every character is white space |
| Text.TrimIsEmptyIffBlank | src/app/builder/components/AgentForm.tsx:27 | `!s.trim()` holds exactly when every character of `s` is white space |
| Text.Join | src/app/builder/utils/agentConverter.ts:96 | `join(sep)`: the parts in order with `sep` between neighbours; read back by UnquoteQuoteAll for the `required` list |
| Text.NatToString | src/app/builder/components/AgentForm.tsx:40 | the decimal numeral of an index: non-empty and made of digits |
| Text.ParseNatToString | src/app/builder/components/AgentForm.tsx:40 | reading the numeral back gives the number |
| Text.NatToStringInjective | src/app/builder/components/AgentForm.tsx:40-43 | different tool indices give different key numerals |
| Text.RemoveFirst | src/app/App.tsx:193 | `replace(pattern, '')` on a string that starts with the pattern drops exactly that prefix |
| BuilderTypes.VoiceOptionsListEachVoiceOnce | src/app/builder/types.ts:30-39 | the voice table lists every voice, each exactly once |
| BuilderTypes.ParameterTypesListEachTypeOnce | src/app/builder/types.ts:41-47 | the parameter-type table lists every type, each exactly once |
| BuilderTypes.CreateEmptyAgent | src/app/builder/types.ts:49-61 | a fresh agent: the given id, empty texts, voice sage, no tools or handoffs, `createdAt` and `updatedAt` taken from two separate clock readings |
| BuilderTypes.CreateEmptyTool | src/app/builder/types.ts:63-70 | a fresh tool: the given id, empty name and description, no parameters |
| BuilderTypes.CreateEmptyParameter | src/app/builder/types.ts:72-79 | a fresh parameter: empty name and description, type string, optional, no enum values |
| AgentStorage.Stamped | src/app/builder/hooks/useAgentStorage.ts:42 | the saved copy differs from the agent only in `updatedAt`, which is the clock reading |
| AgentStorage.AgentStore.constructor | src/app/builder/hooks/useAgentStorage.ts:9-10 | the store starts empty and not loaded |
| AgentStorage.AgentStore.SaveAgent | src/app/builder/hooks/useAgentStorage.ts:39-54 | the stamped agent replaces the slot with its id, or is appended when no agent has it |
| AgentStorage.AgentStore.DeleteAgent | src/app/builder/hooks/useAgentStorage.ts:56-58 | the list becomes the agents whose id differs |
| AgentStorage.AgentStore.GetAgent | src/app/builder/hooks/useAgentStorage.ts:60-62 | none exactly when no stored agent has the id, otherwise the first stored agent with that id |
| AgentStorage.AgentStore.ImportAgents | src/app/builder/hooks/useAgentStorage.ts:81-108 | a non-array payload is rejected and nothing changes; an array is merged in order: replace by id or push |
| AgentStorage.GetAfterSave | src/app/builder/hooks/useAgentStorage.ts:39-62 | after a save, looking up the id finds the stamped agent |
| AgentStorage.GetAfterDelete | src/app/builder/hooks/useAgentStorage.ts:56-62 | after a delete, the id is not found, and deleting again changes nothing |
| AgentStorage.ImportKeepsPositions | src/app/builder/hooks/useAgentStorage.ts:92-103 | the merge never shrinks the list nor grows it past the imported count; existing ids keep their slots; every imported id is present |
| AgentForm.AgentFormModel.constructor | src/app/builder/components/AgentForm.tsx:16-18 | the form starts with the given agent and no errors |
| AgentForm.AgentFormModel.Validate | src/app/builder/components/AgentForm.tsx:24-49 | the error table becomes the validation table of the agent, and the result is true exactly when the table is empty |
| AgentForm.AgentFormModel.HandleSave | src/app/builder/components/AgentForm.tsx:51-55 | the agent is handed on exactly when validation finds no error |
| AgentForm.AgentFormModel.HandleAddTool | src/app/builder/components/AgentForm.tsx:57-61 | a fresh empty tool is appended; nothing else changes |
| AgentForm.AgentFormModel.HandleUpdateTool | src/app/builder/components/AgentForm.tsx:63-67 | the tool at the index is replaced; nothing else changes |
| AgentForm.AgentFormModel.HandleDeleteTool | src/app/builder/components/AgentForm.tsx:69-73 | the tool at the index is dropped and the later ones shift down |
| AgentForm.IsValidName | src/app/builder/components/AgentForm.tsx:29 | the pattern `^[a-zA-Z][a-zA-Z0-9_]*$` on the untrimmed name: a letter first, then letters, digits and underscores |
| AgentForm.FieldErrors | src/app/builder/components/AgentForm.tsx:27-35 | the name entry (required, else format) and the instructions entry; stated by NameError and InstructionsError |
| AgentForm.AddToolErrorsUpTo | src/app/builder/components/AgentForm.tsx:38-45 | the tool entries of the first `n` tools added to a table; stated by AddToolErrorsUpToAt and AddToolErrorsUpToKeys |
| AgentForm.ValidationErrors | src/app/builder/components/AgentForm.tsx:24-49 | the table `validate` builds; empty exactly when the agent is valid (NoErrorsIffValid) |
| AgentForm.KeyTextInjective | src/app/builder/components/AgentForm.tsx:28-43 | the error-key strings `name`, `instructions`, `tool_<i>_name` and `tool_<i>_description` are all distinct |
| AgentForm.AddToolErrorsUpToAt | src/app/builder/components/AgentForm.tsx:38-45 | after the tool loop, tool `i`'s name and description keys are present, with the fixed messages, exactly when `i` was visited and the field is blank |
| AgentForm.AddToolErrorsUpToKeys | src/app/builder/components/AgentForm.tsx:38-45 | the tool loop leaves entries with other keys as they were, and adds only tool keys of visited indices |
| AgentForm.NameError | src/app/builder/components/AgentForm.tsx:27-31 | a name error exactly when the name is blank or fails the name pattern; blank gives "Name is required", otherwise the format message |
| AgentForm.InstructionsError | src/app/builder/components/AgentForm.tsx:33-35 | an instructions error exactly when the instructions are blank, with "Instructions are required" |
| AgentForm.ToolError | src/app/builder/components/AgentForm.tsx:38-45 | each tool has a name or description error exactly when that field is blank, with the fixed messages |
| AgentForm.ErrorKeys | src/app/builder/components/AgentForm.tsx:38-45 | every tool key in the table names an existing tool |
| AgentForm.NoErrorsIffValid | src/app/builder/components/AgentForm.tsx:24-49 | the table is empty exactly when the name is non-blank and well-formed, the instructions are non-blank, and every tool has a non-blank name and description |
| AgentForm.EmptyAgentErrors | src/app/builder/components/AgentForm.tsx:27-35 | a fresh agent has exactly the name and instructions errors |
| AgentForm.EmptyToolErrors | src/app/builder/components/AgentForm.tsx:39-44 | a fresh tool gets both tool errors |
| ToolBuilder.UpdateTool | src/app/builder/components/ToolBuilder.tsx:17-19 | `{...tool, ...updates}`: each field is the update's value when given, the tool's otherwise |
| ToolBuilder.MergeParameter | src/app/builder/components/ToolBuilder.tsx:29 | a parameter patch merged field by field |
| ToolBuilder.AddParameter | src/app/builder/components/ToolBuilder.tsx:21-25 | one fresh parameter appended after the unchanged ones; the tool's other fields kept |
| ToolBuilder.UpdateParameter | src/app/builder/components/ToolBuilder.tsx:27-31 | the parameter at the index is the merged one; every other parameter and field is kept |
| ToolBuilder.DeleteParameter | src/app/builder/components/ToolBuilder.tsx:33-37 | the parameter at the index is dropped and the later ones shift down; an out-of-range index changes nothing |
| ToolBuilder.HeaderLabel | src/app/builder/components/ToolBuilder.tsx:58 | the tool's name, or `Tool <index + 1>` when the name is empty |
| ToolBuilder.ParameterCountLabel | src/app/builder/components/ToolBuilder.tsx:60-64 | no badge exactly when the tool has no parameters |
| ToolBuilder.UpdateToolLaws | src/app/builder/components/ToolBuilder.tsx:17-19 | an empty patch changes nothing, and applying a patch twice equals applying it once |
| ToolBuilder.UpdateToolCompose | src/app/builder/components/ToolBuilder.tsx:17-19 | of two successive patches, the later one's name wins when it has one |
| ToolBuilder.DeleteAfterAdd | src/app/builder/components/ToolBuilder.tsx:21-37 | deleting the parameter just added restores the tool |
| ToolBuilder.UpdateParameterEmpty | src/app/builder/components/ToolBuilder.tsx:27-31 | an empty parameter patch changes nothing |
| ToolBuilder.ParameterCountLabelSingularIffOne | src/app/builder/components/ToolBuilder.tsx:62 | the badge says `params` exactly when the count is not 1 |
| ToolBuilder.ParameterCountLabelShowsCount | src/app/builder/components/ToolBuilder.tsx:62 | the badge opens with a run of digits, ended by a space, that reads back as the parameter count |
| ToolBuilder.HeaderLabelNonEmpty | src/app/builder/components/ToolBuilder.tsx:58 | the header label is never empty |
| HandoffSelector.ToggleHandoff | src/app/builder/components/HandoffSelector.tsx:13-19 | a selected id is removed (the list shrinks); an unselected one is appended; other ids keep their membership |
| HandoffSelector.IsSelected | src/app/builder/components/HandoffSelector.tsx:41 | `selectedHandoffs.includes(agent.id)`; ToggleFlipsSelection states how a toggle changes it |
| HandoffSelector.ToggleFlipsSelection | src/app/builder/components/HandoffSelector.tsx:13-41 | toggling flips the agent's own selected state and no other agent's |
| HandoffSelector.ToggleTwiceRestores | src/app/builder/components/HandoffSelector.tsx:13-19 | toggling an unselected id twice restores the selection |
| HandoffSelector.RemoveShrinks | src/app/builder/components/HandoffSelector.tsx:15 | removing a present id shortens the list |
| HandoffSelector.FlowLabel | src/app/builder/components/HandoffSelector.tsx:101-108 | "Unknown" when no agent has the id; any other label is the non-empty name of the first agent with the id |
| HandoffSelector.FlowLabelOfNamedAgent | src/app/builder/components/HandoffSelector.tsx:102-107 | a named agent that is the first with its id is shown by its name |
| AgentConverter.RequiredOf | src/app/builder/utils/agentConverter.ts:13-22 | the required list is no longer than the parameter list; what it holds, and in which order, is stated by RequiredMembers and RequiredOfConcat |
| AgentConverter.SchemaOf | src/app/builder/utils/agentConverter.ts:28-33 | the schema is of type `object` and closed to additional properties |
| AgentConverter.PropertiesOf | src/app/builder/utils/agentConverter.ts:15-19 | `properties` after each parameter is written in turn; its keys and entries are stated by PropertiesKeys and PropertiesLastWins |
| AgentConverter.ConvertTool | src/app/builder/utils/agentConverter.ts:25-40 | the runtime tool: the configured name and description and the parameters' schema; stated by ConvertToRealtimeAgent |
| AgentConverter.BuildParameters | src/app/builder/utils/agentConverter.ts:12-23 | the `forEach` loop builds exactly the schema of the parameters |
| AgentConverter.PropertiesKeys | src/app/builder/utils/agentConverter.ts:15-19 | `properties` has a key exactly for each parameter name |
| AgentConverter.PropertiesLastWins | src/app/builder/utils/agentConverter.ts:15-19 | a name's entry describes the last parameter with that name |
| AgentConverter.RequiredOfConcat | src/app/builder/utils/agentConverter.ts:20-22 | the required names of a concatenation are those of each part, in order |
| AgentConverter.RequiredMembers | src/app/builder/utils/agentConverter.ts:20-22 | a name is required exactly when some required parameter has it |
| AgentConverter.EmptySchema | src/app/builder/utils/agentConverter.ts:28-33 | no parameters give the empty closed object schema |
| AgentConverter.ConvertToRealtimeAgent | src/app/builder/utils/agentConverter.ts:10-51 | name, voice, handoff description and instructions are copied; one converted tool per tool, in order; no handoffs |
| AgentConverter.IdOrder | src/app/builder/utils/agentConverter.ts:58-63 | the key order of `agentMap`: each id where it first occurs; stated by IdOrderMembers and IdOrderFirstOccurrence |
| AgentConverter.AgentMapOf | src/app/builder/utils/agentConverter.ts:58-63 | the entries of `agentMap` after each config is set in turn; stated by IdOrderMembers and AgentMapLastWins |
| AgentConverter.ConvertedAgents | src/app/builder/utils/agentConverter.ts:79 | `Array.from(agentMap.values())`: the map's values in key order; stated by ConvertedAgentsShape |
| AgentConverter.IdOrderMembers | src/app/builder/utils/agentConverter.ts:58-63 | the map's keys are exactly the configs' ids |
| AgentConverter.ConvertAgentsWithHandoffs | src/app/builder/utils/agentConverter.ts:56-80 | the two loops build the map's values in insertion order |
| AgentConverter.IdOrderFirstOccurrence | src/app/builder/utils/agentConverter.ts:60-79 | the ids are distinct, in order of first occurrence |
| AgentConverter.AgentMapLastWins | src/app/builder/utils/agentConverter.ts:60-63 | a repeated id maps to the conversion of its last config |
| AgentConverter.ConvertedAgentsShape | src/app/builder/utils/agentConverter.ts:56-80 | one agent per distinct id, each the conversion of a config with that id |
| AgentConverter.EscapeQuotes | src/app/builder/utils/agentConverter.ts:93 | escaping never shortens the text and never leaves a quote in front |
| AgentConverter.EscapeQuotesCorrect | src/app/builder/utils/agentConverter.ts:93 | every quote of the escaped text follows a backslash, and dropping the backslash before each quote (`UnescapeQuotes`) gives the text back; this is not how a TypeScript literal is read, see "## Left out" |
| AgentConverter.EscapeQuotesNoQuote | src/app/builder/utils/agentConverter.ts:93 | text without quotes is left as it is |
| AgentConverter.ParamCode | src/app/builder/utils/agentConverter.ts:91-94 | the `properties` entry of one parameter: name, type and escaped description |
| AgentConverter.RequiredCode | src/app/builder/utils/agentConverter.ts:96 | the `required` array text; stated by RequiredCodeReadsBack |
| AgentConverter.ParamsCode | src/app/builder/utils/agentConverter.ts:87-104 | the schema text, with the empty schema exactly when there are no parameters (EmptyParamsCodeForNoParameters) |
| AgentConverter.ToolCode | src/app/builder/utils/agentConverter.ts:106-114 | the `tool({...})` call text with the name, escaped description, schema text and stub `execute` |
| AgentConverter.QuoteAll | src/app/builder/utils/agentConverter.ts:96 | each required name is quoted, in order |
| AgentConverter.AgentCodeTemplate | src/app/builder/utils/agentConverter.ts:117-134 | the module starts with the import and the `<name>Agent` export, and ends with the `<name>Scenario` exports |
| AgentConverter.GenerateAgentCode | src/app/builder/utils/agentConverter.ts:85-135 | the generated module exports `<name>Agent` and a scenario of that one agent |
| AgentConverter.EmptyParamsCodeForNoParameters | src/app/builder/utils/agentConverter.ts:99-104 | a tool without parameters gets the fixed empty schema text |
| AgentConverter.UnquoteQuoteAll | src/app/builder/utils/agentConverter.ts:96 | names without quotes, quoted and joined with `, `, read back (`UnquoteList`) as the same names in the same order |
| AgentConverter.RequiredCodeReadsBack | src/app/builder/utils/agentConverter.ts:96 | the generated `required` text is bracketed and, when no name contains a quote, reads back as exactly the required parameters' names in parameter order |
| PreviewPanel.HandoffsLine | src/app/builder/components/PreviewPanel.tsx:50-52 | the placeholder exactly when the agent has handoffs, the empty list exactly when it has none |
| PreviewPanel.GenerateCode | src/app/builder/components/PreviewPanel.tsx:18-72 | the preview exports `<name>Agent` and its one-agent scenario |
| PreviewPanel.PreviewMatchesConverter | src/app/builder/components/PreviewPanel.tsx:18-72 | without handoffs, the preview is exactly the converter's code |
| CustomAgents.ScenarioKeyInjective | src/app/hooks/useCustomAgents.ts:51 | agents with different names get different `custom_` keys |
| CustomAgents.ScenarioKey | src/app/hooks/useCustomAgents.ts:51 | `custom_${config.name}`; ScenarioKeyInjective states that it tells names apart |
| CustomAgents.AgentSetsOf | src/app/hooks/useCustomAgents.ts:47-52 | the table after each config is written in turn; stated by AgentSetsKeys, AgentSetsLastWins and AgentSetsSingletons |
| CustomAgents.ConvertCustomAgent | src/app/hooks/useCustomAgents.ts:85-131 | the local conversion equals the builder's conversion and has no handoffs |
| CustomAgents.CustomAgentSets.constructor | src/app/hooks/useCustomAgents.ts:35-36 | no custom scenarios, not loaded |
| CustomAgents.CustomAgentSets.LoadAgents | src/app/hooks/useCustomAgents.ts:38-60 | stored configs rebuild the table; a missing or failing entry keeps it; either way the table is loaded |
| CustomAgents.CustomAgentSets.HandleStorageChange | src/app/hooks/useCustomAgents.ts:69-73 | only a change of the builder's storage key reloads |
| CustomAgents.AgentSetsKeys | src/app/hooks/useCustomAgents.ts:47-52 | the table has a key `custom_<name>` for each stored agent, and no other |
| CustomAgents.AgentSetsLastWins | src/app/hooks/useCustomAgents.ts:47-52 | each scenario is the conversion of the last agent with that name |
| CustomAgents.AgentSetsSingletons | src/app/hooks/useCustomAgents.ts:51 | every scenario holds exactly one agent, without handoffs |
| Transcript.SortByCreation | src/app/components/Transcript.tsx:109-110 | the items end in non-decreasing creation time and are a permutation of the items before |
| Transcript.InsertIntoSortedPrefix | src/app/components/Transcript.tsx:110 | one insertion step: a sorted prefix of length `i` becomes one of length `i + 1`, by a permutation |
| Transcript.SwapWithPrevious | src/app/components/Transcript.tsx:110 | two neighbours change places and nothing else moves |
| Transcript.IsBracketed | src/app/components/Transcript.tsx:128 | `title.startsWith("[") && title.endsWith("]")`; the italic test of RenderItem |
| Transcript.StripBrackets | src/app/components/Transcript.tsx:157 | one leading `[` and one trailing `]` are dropped, each only where present |
| Transcript.StripBracketedTitle | src/app/components/Transcript.tsx:128-157 | a bracketed title is its stripped text between the two brackets |
| Transcript.StripUnbracketedTitle | src/app/components/Transcript.tsx:157 | a title with no bracket at either end is shown as it is |
| Transcript.RenderItem | src/app/components/Transcript.tsx:112-205 | hidden items render nothing; a message shows the stripped title, in italics exactly when bracketed; a breadcrumb is clickable exactly when it has data, and shows that data only when expanded |
| Transcript.BreadcrumbClick | src/app/components/Transcript.tsx:179 | a click toggles the item exactly when it has data |
| Transcript.TranscriptView.constructor | src/app/components/Transcript.tsx:29 | no remembered items |
| Transcript.ChangedAt | src/app/components/Transcript.tsx:41-46 | an item at an index both lists have, whose title or data differs |
| Transcript.ScrollNeeded | src/app/components/Transcript.tsx:40-47 | the list grew or some shared index changed; stated by ScrollOnAppend, NoScrollOnPrefix and ScrollOnRetitle |
| Transcript.TranscriptView.OnItemsChanged | src/app/components/Transcript.tsx:39-54 | scrolls exactly when the list grew or an item at a shared index changed title or data; remembers the new items |
| Transcript.ScrollOnAppend | src/app/components/Transcript.tsx:40 | a new item at the end scrolls |
| Transcript.NoScrollOnPrefix | src/app/components/Transcript.tsx:40-47 | the same items, or fewer, do not scroll |
| Transcript.ScrollOnRetitle | src/app/components/Transcript.tsx:41-46 | a retitled item scrolls |
| Session.AgentSetKey | src/app/App.tsx:174 | the URL's agent set, or `default` when it is missing or empty |
| Session.MergeScenarios | src/app/App.tsx:56-65 | the merged table has the keys of both; a custom scenario wins over a built-in one |
| Session.BuiltInSetNotConnectable | src/app/App.tsx:35-65 | a built-in picker set that no custom scenario overrides is not in the connect step's table |
| Session.PolicyFor | src/app/App.tsx:190-194 | retail company for `customerServiceRetail`; the key after `custom_` for custom keys; the chat-supervisor company otherwise |
| Session.PolicyForCustomScenario | src/app/App.tsx:190-194 | a stored agent's custom scenario is guarded for the agent's own name |
| Session.MovedToFront | src/app/App.tsx:186-187 | the chosen element first, the rest in their old order, a permutation |
| Session.MovedToFrontElements | src/app/App.tsx:186-187 | slot by slot: the elements before the chosen index move one slot back, the later ones stay |
| Session.Reordered | src/app/App.tsx:183-188 | a permutation; the selected agent moved to the front when it is first found past index 0; otherwise the list as it is |
| Session.FirstNameIndex | src/app/App.tsx:184 | `findIndex` by name is -1 exactly when no agent has the name, and otherwise the index of the first agent that has it |
| Session.MoveToFront | src/app/App.tsx:186-187 | the in-place splice and unshift leave the array as the chosen element moved to the front |
| Session.ReorderAgents | src/app/App.tsx:183-188 | the copied and reordered list is the reordered agents |
| Session.TurnDetectionFor | src/app/App.tsx:234-240 | none exactly under push-to-talk; otherwise server VAD at 0.9, 300 ms and 500 ms, creating responses |
| Session.MessageId | src/app/App.tsx:219 | at most the first 32 characters of the uuid |
| Session.SessionUpdateCalls | src/app/App.tsx:218-250 | exactly one `session.update`, first; a user message exactly when triggered, then the greeting and `response.create` |
| Session.GreetingEntryMatchesMessage | src/app/App.tsx:219-229 | the hidden transcript entry has the id of the message sent |
| Session.TalkDownCalls | src/app/App.tsx:263-268 | nothing unless connected; then interrupt and `input_audio_buffer.clear` |
| Session.TalkUpCalls | src/app/App.tsx:270-275 | nothing unless connected and speaking; then commit and `response.create` |
| Session.PushToTalkTurn | src/app/App.tsx:263-275 | a press and release while connected send the whole push-to-talk turn |
| Session.TextMessageCalls | src/app/App.tsx:252-261 | nothing for a blank draft; otherwise interrupt and the trimmed, non-empty text |
| Session.AgentBreadcrumb | src/app/App.tsx:144-145 | titled `Agent: <name>`, carrying the first agent of the set with that name, if there is one |
| Session.SessionController.constructor | src/app/App.tsx:67-111 | disconnected, not speaking, no push-to-talk, latch clear, nothing selected, empty logs |
| Session.SessionController.OnCustomAgentSetsChanged | src/app/App.tsx:56-65 | both merged tables follow the custom scenarios |
| Session.SessionController.AgentSetEffect | src/app/App.tsx:117-134 | once loaded, a known set becomes active with its first agent selected; a missing or unknown key asks for the default set |
| Session.SessionController.ConnectToRealtime | src/app/App.tsx:157-210 | nothing unless the key is known and the status is disconnected; a missing key or failed fetch ends disconnected without connecting; otherwise one connect with the reordered agents and the key's policy, ending disconnected when it throws |
| Session.SessionController.OnConnectionChange | src/app/App.tsx:95 | the status follows the SDK |
| Session.SessionController.DisconnectFromRealtime | src/app/App.tsx:212-216 | disconnects; disconnected and not speaking |
| Session.SessionController.SendSimulatedUserMessage | src/app/App.tsx:218-231 | a hidden transcript entry and a message with the same id, then `response.create` |
| Session.SessionController.UpdateSession | src/app/App.tsx:233-250 | sends the session-update calls; records the hidden greeting exactly when triggered |
| Session.SessionController.HandleSendTextMessage | src/app/App.tsx:252-261 | sends the text-message calls; clears the draft exactly when it was not blank |
| Session.SessionController.SetUserText | src/app/App.tsx:104 | the draft is the typed text |
| Session.SessionController.HandleTalkButtonDown | src/app/App.tsx:263-268 | when connected, the press calls and the user is speaking; otherwise nothing |
| Session.SessionController.HandleTalkButtonUp | src/app/App.tsx:270-275 | when connected and speaking, the release calls and the user stops; otherwise nothing |
| Session.SessionController.OnToggleConnection | src/app/App.tsx:277-283 | connected or connecting: disconnect; otherwise the connect attempt |
| Session.SessionController.OnAgentHandoff | src/app/App.tsx:96-99 | the latch is set and the new agent is selected |
| Session.SessionController.HandleSelectedAgentChange | src/app/App.tsx:292-296 | disconnects, then selects the agent |
| Session.SessionController.AutoConnectEffect | src/app/App.tsx:136-140 | with an agent selected and the session disconnected, the connect attempt; otherwise nothing |
| Session.SessionController.ConnectedEffect | src/app/App.tsx:142-149 | when connected with a set and an agent: breadcrumb, session update greeting exactly when the latch was clear, and the latch cleared; otherwise nothing |
| Session.SessionController.SetPushToTalkActive | src/app/App.tsx:105 | the push-to-talk switch |
| Session.SessionController.PushToTalkEffect | src/app/App.tsx:151-155 | a live session gets a session update without greeting |
| Session.SessionController.SetAudioPlaybackEnabled | src/app/App.tsx:107 | the playback switch |
| Session.SessionController.AudioPlaybackEffect | src/app/App.tsx:327 | mute exactly when playback is off |
| Session.SessionController.MuteSyncEffect | src/app/App.tsx:330-334 | when connected, mute exactly when playback is off |

## Left out

- Browser storage, `JSON.parse`/`stringify`, `FileReader`, `Blob` and download links (src/app/builder/hooks/useAgentStorage.ts:13-37, 64-75, 116-127). They are I/O. Their outcomes enter the model as `ImportPayload` and `StoredValue` values. The import rejects only text that is not JSON and JSON that is not an array; an array whose entries are malformed is merged as it is. The model's `AgentArray` holds only well-formed configs, so it assumes an imported array holds well-formed configs and does not model the merge of malformed entries.
- URL navigation (src/app/App.tsx:121-127, 285-302). It is browser I/O. `AgentSetEffect` returns the key it would navigate to.
- Audio element play/pause, autoplay, the `audioPlaybackEnabled` storage entry and recording (src/app/App.tsx:107-111, 315-326, 336-341). They are media I/O. Only `mute(!enabled)` is kept, as a logged call.
- The ephemeral-key HTTP fetch and its logging (src/app/App.tsx:157-171). Only its outcome is modelled: a key, no key (`client_secret.value` missing, null or empty), or a failure.
- The moderation guardrail itself and the built-in company-name constants. They live in scenario files that are not part of this model. `Policy` names the company the guardrail is made for.
- Asynchrony: the connect flow runs to completion in one method, and React effects are methods the host calls. The stale state a pending `connect` could observe, and React's batching order, are not modelled.
- Built-in scenario agents: they are values handed to the controller's constructor, not modelled from their source files.
- Tool `execute` functions: stubs in the source, so not modelled.
- The handoff-resolution loop (src/app/builder/utils/agentConverter.ts:66-77): it computes a list it never uses, so it has no observable effect.
- JavaScript object key order of `properties`: the model uses a map, so it does not record the insertion order of names.
- `AgentForm.updateAgent` edits of the basic fields and the non-tool tabs (src/app/builder/components/AgentForm.tsx:20-22, 75-422): only the tool-list handlers are modelled.
- AgentForm.AgentFormModel.HandleUpdateTool: requires an index in range. An out-of-range write in JavaScript would grow the array with holes.
- ToolBuilder.UpdateParameter: requires an index in range, for the same reason.
- Session.SessionController.AgentSetEffect: the merged scenario table is modelled as a map, so a key is known only when a scenario has it. In the source it is a plain object (src/app/App.tsx:121), so an inherited name such as `toString`, `constructor`, `hasOwnProperty` or `__proto__` looks up a truthy value. The source then does not redirect; it selects `""` as the agent name (`agents[0]?.name || ""`) and stores that non-array value as the set (src/app/App.tsx:129-133). The model instead returns the default key to navigate to. For such keys ConnectToRealtime ends as the source does: there, copying the non-array throws inside the `try` and the status is set back to disconnected.
- AgentConverter.PropertiesOf: `properties` is modelled as a map, so every parameter name becomes a key. In the source it is a plain object (src/app/builder/utils/agentConverter.ts:16), and parameter names are never validated. A parameter named `__proto__` therefore replaces the object's prototype and adds no key of its own. PropertiesLastWins is stated for the map and does not cover such names either.
- AgentConverter.PropertiesKeys: "a key exactly for each parameter name" holds for the map. It does not hold in the source for a parameter named `__proto__`, which adds no key (see the PropertiesOf line).
- AgentConverter.EscapeQuotes: the source escapes only single quotes, and so does the model. It does not escape backslashes, and tool, parameter and agent names are inserted with no escaping at all. A description ending in `\`, or one containing `\'`, therefore gives a literal that TypeScript does not read back as the description. The model does not model how TypeScript reads a string literal, so it promises nothing about the generated literals beyond EscapeQuotesCorrect; RequiredCodeReadsBack holds only for names without quotes. The `instructions` text is inserted, unescaped, into a backtick template literal (src/app/builder/utils/agentConverter.ts:122-124), so instructions containing a backtick or `${` also break the generated module; the model copies the text as it is and says nothing about how it would be read.
- Text.TrimStart: white space covers only the ASCII white-space controls, the space, the no-break space, the line and paragraph separators and the byte-order mark. The other Unicode space separators `trim` also removes are not covered. Text.TrimEnd has the same limit.
- Transcript.SortByCreation: does not state stability. JavaScript's sort is stable on equal creation times; the model proves only sortedness and permutation.
- Transcript data payloads: modelled as `DataRef` identities. The change test compares by reference, not by contents.
- Transcript item types other than messages and breadcrumbs, the guardrail chip, Markdown rendering, animation and the clipboard: pure presentation.
- Events pane, visualiser, API proxy routes and other files shown for context: they are outside this core.
