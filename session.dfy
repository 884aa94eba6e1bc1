/** The voice app's session controller (src/app/App.tsx): connecting to the
    realtime service with the chosen scenario, the turn-detection update and
    greeting, push-to-talk, text messages, the handoff latch and the mute
    sync. The realtime SDK and the transcript store are seen only through the
    calls made on them, which the controller appends to two logs. */
module Session {
  import opened Lists
  import opened Text
  import opened AgentConverter
  import CustomAgents

  datatype SessionStatus = Disconnected | Connecting | Connected

  /** The `server_vad` turn-detection settings. */
  datatype TurnDetection = ServerVad(threshold: real, prefixPaddingMs: nat, silenceDurationMs: nat, createResponse: bool)

  /** The client events sent with `sendEvent`. */
  datatype ClientEvent =
    | SessionUpdate(turnDetection: Option<TurnDetection>)
    | ConversationItemCreate(itemId: string, text: string)   // a user message with one `input_text` part
    | ResponseCreate
    | InputAudioBufferClear
    | InputAudioBufferCommit

  /** The company a moderation guardrail is created for. The two built-in
      company names are constants of scenarios that are not part of this model. */
  datatype Policy = RetailCompany | ChatSupervisorCompany | CustomCompany(companyName: string)

  /** A call made on the realtime session. */
  datatype TransportCall =
    | Connect(initialAgents: seq<RealtimeAgent>, guardrail: Policy)
    | Disconnect
    | SendEvent(event: ClientEvent)
    | SendUserText(text: string)
    | Interrupt
    | Mute(muted: bool)

  /** A call made on the transcript store. */
  datatype TranscriptCall =
    | AddMessage(itemId: string, role: string, text: string, isHidden: bool)
    | AddBreadcrumb(title: string, agent: Option<RealtimeAgent>)

  /** What asking the server for an ephemeral key produced: the body's
      `client_secret.value`, or a request or parse that threw. */
  datatype CredentialOutcome = Issued(key: Option<string>) | FetchFailed

  /** A key the connect step accepts: present and not the empty string. */
  predicate HasKey(credential: CredentialOutcome) {
    credential.Issued? && credential.key.Some? && credential.key.value != ""
  }

  const RetailKey := "customerServiceRetail"
  const DefaultAgentSetKey := "personalCoach"
  const GreetingText := "hi"

  /** The keys of the built-in agent sets offered in the scenario picker. */
  const BuiltInAgentSetKeys: set<string> := {"customerSupport", "personalCoach"}

  /** The keys of the scenarios the connect step knows. */
  const SdkScenarioKeys: set<string> := {"simpleHandoff", "customerServiceRetail", "chatSupervisor"}

  /** `searchParams.get("agentConfig") || "default"`. */
  function AgentSetKey(param: Option<string>): (r: string)
    ensures param.Some? && param.value != "" ==> r == param.value
    ensures param.None? || param.value == "" ==> r == "default"
  {
    if param.Some? && param.value != "" then param.value else "default"
  }

  /** `{...base, ...overrides}`: every key of either table, the overriding
      entry winning where both have one. */
  function MergeScenarios(base: map<string, seq<RealtimeAgent>>, overrides: map<string, seq<RealtimeAgent>>)
    : (r: map<string, seq<RealtimeAgent>>)
    ensures r.Keys == base.Keys + overrides.Keys
    ensures forall k :: k in overrides ==> r[k] == overrides[k]
    ensures forall k :: k in base && k !in overrides ==> r[k] == base[k]
  {
    base + overrides
  }

  /** A custom scenario overriding nothing cannot make a built-in agent set
      connectable: the keys of the picker's built-in sets are not scenario
      keys of the connect step. */
  lemma BuiltInSetNotConnectable(sdkScenarios: map<string, seq<RealtimeAgent>>,
                                 custom: map<string, seq<RealtimeAgent>>, key: string)
    requires sdkScenarios.Keys == SdkScenarioKeys
    requires key in BuiltInAgentSetKeys && key !in custom
    ensures key !in MergeScenarios(sdkScenarios, custom)
  {
  }

  /** The guardrail's company: the retail company for the retail scenario,
      the rest of the key after `custom_` for a custom scenario, and the
      chat-supervisor company otherwise. */
  function PolicyFor(key: string): (r: Policy)
    ensures key == RetailKey ==> r == RetailCompany
    ensures key != RetailKey && StartsWith(key, CustomAgents.CustomPrefix) ==>
              r == CustomCompany(key[|CustomAgents.CustomPrefix|..])
    ensures key != RetailKey && !StartsWith(key, CustomAgents.CustomPrefix) ==> r == ChatSupervisorCompany
  {
    if key == RetailKey then RetailCompany
    else if StartsWith(key, CustomAgents.CustomPrefix) then CustomCompany(RemoveFirst(key, CustomAgents.CustomPrefix))
    else ChatSupervisorCompany
  }

  /** A stored builder agent's scenario is guarded for the agent's own name. */
  lemma PolicyForCustomScenario(config: BuilderTypes.AgentConfig)
    ensures PolicyFor(CustomAgents.ScenarioKey(config)) == CustomCompany(config.name)
  {
    var key := CustomAgents.ScenarioKey(config);
    assert key[6] == '_' && RetailKey[6] == 'e';
    assert key[..|CustomAgents.CustomPrefix|] == CustomAgents.CustomPrefix;
    assert key[|CustomAgents.CustomPrefix|..] == config.name;
  }

  function AgentNameOf(agent: RealtimeAgent): string {
    agent.name
  }

  /** The sequence with the element at `i` taken out and put in front. */
  function MovedToFront<T>(s: seq<T>, i: nat): (r: seq<T>)
    requires i < |s|
    ensures |r| == |s| && r[0] == s[i]
    ensures RemoveAt(r, 0) == RemoveAt(s, i)
    ensures multiset(r) == multiset(s)
  {
    assert s == s[..i] + [s[i]] + s[i + 1..];
    [s[i]] + s[..i] + s[i + 1..]
  }

  /** The initial agents: the selected agent first when it sits further
      back, the list as it is when the first agent already is the selected
      one or no agent has its name. */
  function Reordered(agents: seq<RealtimeAgent>, selectedName: string): (r: seq<RealtimeAgent>)
    ensures multiset(r) == multiset(agents)
    ensures (forall j :: 0 <= j < |agents| ==> agents[j].name != selectedName) ==> r == agents
    ensures |agents| > 0 && agents[0].name == selectedName ==> r == agents
    ensures forall i :: 0 < i < |agents| && agents[i].name == selectedName &&
                        (forall j :: 0 <= j < i ==> agents[j].name != selectedName) ==>
                        r == MovedToFront(agents, i)
  {
    var idx := IndexOfKey(agents, AgentNameOf, selectedName);
    FirstNameIndex(agents, selectedName);
    if idx > 0 then MovedToFront(agents, idx) else agents
  }

  /** The index `findIndex` gives for a name is the first agent with it. */
  lemma FirstNameIndex(agents: seq<RealtimeAgent>, name: string)
    ensures var idx := IndexOfKey(agents, AgentNameOf, name);
            (idx == -1 <==> forall j :: 0 <= j < |agents| ==> agents[j].name != name) &&
            forall i :: (0 <= i < |agents| && agents[i].name == name &&
                         forall j :: 0 <= j < i ==> agents[j].name != name) ==> idx == i
  {
    var idx := IndexOfKey(agents, AgentNameOf, name);
    assert forall j :: 0 <= j < |agents| ==> AgentNameOf(agents[j]) == agents[j].name;
    forall i | 0 <= i < |agents| && agents[i].name == name && (forall j :: 0 <= j < i ==> agents[j].name != name)
      ensures idx == i
    {
      assert AgentNameOf(agents[i]) == name;
    }
  }

  /** `splice(idx, 1)` followed by `unshift`: the agents before `idx` move
      one slot back and the agent at `idx` takes the first slot. */
  method MoveToFront(a: array<RealtimeAgent>, idx: nat)
    requires idx < a.Length
    modifies a
    ensures a[..] == MovedToFront(old(a[..]), idx)
  {
    var agent := a[idx];
    var k := idx;
    while k > 0
      invariant 0 <= k <= idx
      invariant forall m :: 0 <= m < k ==> a[m] == old(a[m])
      invariant forall m :: k < m <= idx ==> a[m] == old(a[m - 1])
      invariant forall m :: idx < m < a.Length ==> a[m] == old(a[m])
    {
      a[k] := a[k - 1];
      k := k - 1;
    }
    a[0] := agent;
    MovedToFrontElements(old(a[..]), idx);
  }

  /** The elements of `MovedToFront(s, i)`, slot by slot. */
  lemma MovedToFrontElements<T>(s: seq<T>, i: nat)
    requires i < |s|
    ensures forall m :: 0 < m <= i ==> MovedToFront(s, i)[m] == s[m - 1]
    ensures forall m :: i < m < |s| ==> MovedToFront(s, i)[m] == s[m]
  {
  }

  /** The copy-and-reorder of the connect step. */
  method ReorderAgents(agents: seq<RealtimeAgent>, selectedName: string) returns (reordered: seq<RealtimeAgent>)
    ensures reordered == Reordered(agents, selectedName)
  {
    var a := new RealtimeAgent[|agents|](i requires 0 <= i < |agents| => agents[i]);
    assert a[..] == agents;
    var idx := IndexOfKey(agents, AgentNameOf, selectedName);
    if idx > 0 {
      MoveToFront(a, idx);
    }
    reordered := a[..];
  }

  /** `turn_detection`: none under push-to-talk, otherwise voice-activity
      detection at threshold 0.9, 300 ms of prefix padding, 500 ms of
      silence, answering on its own. */
  function TurnDetectionFor(pushToTalk: bool): (r: Option<TurnDetection>)
    ensures r.None? <==> pushToTalk
    ensures r.Some? ==> r.value.threshold == 0.9 && r.value.prefixPaddingMs == 300 &&
                        r.value.silenceDurationMs == 500 && r.value.createResponse
  {
    if pushToTalk then None else Some(ServerVad(0.9, 300, 500, true))
  }

  /** `uuidv4().slice(0, 32)`: at most the first 32 characters. */
  function MessageId(uuid: string): (r: string)
    ensures |r| <= 32 && |r| <= |uuid| && r == uuid[..|r|]
    ensures |uuid| >= 32 ==> |r| == 32
  {
    if |uuid| <= 32 then uuid else uuid[..32]
  }

  /** The simulated user turn: the message, then a request to answer it. */
  function SimulatedMessageCalls(itemId: string, text: string): seq<TransportCall> {
    [SendEvent(ConversationItemCreate(itemId, text)), SendEvent(ResponseCreate)]
  }

  predicate IsSessionUpdate(call: TransportCall) {
    call.SendEvent? && call.event.SessionUpdate?
  }

  /** Whether the calls hold a user message. */
  predicate SendsMessage(calls: seq<TransportCall>) {
    exists i :: 0 <= i < |calls| && calls[i].SendEvent? && calls[i].event.ConversationItemCreate?
  }

  /** What `updateSession` sends: exactly one `session.update`, first, with
      the turn detection of the push-to-talk setting; with the trigger, then
      the greeting message and a `response.create`. */
  function SessionUpdateCalls(pushToTalk: bool, trigger: bool, uuid: string): (r: seq<TransportCall>)
    ensures |r| > 0 && r[0] == SendEvent(SessionUpdate(TurnDetectionFor(pushToTalk)))
    ensures forall i :: 0 < i < |r| ==> !IsSessionUpdate(r[i])
    ensures SendsMessage(r) <==> trigger
    ensures trigger ==> |r| == 3 &&
                        r[1] == SendEvent(ConversationItemCreate(MessageId(uuid), GreetingText)) &&
                        r[2] == SendEvent(ResponseCreate)
    ensures !trigger ==> |r| == 1
  {
    var update := [SendEvent(SessionUpdate(TurnDetectionFor(pushToTalk)))];
    if trigger then
      var r := update + SimulatedMessageCalls(MessageId(uuid), GreetingText);
      assert r[1].SendEvent? && r[1].event.ConversationItemCreate?;
      r
    else update
  }

  /** The hidden transcript entry of a simulated user turn. */
  function HiddenMessage(uuid: string, text: string): TranscriptCall {
    AddMessage(MessageId(uuid), "user", text, true)
  }

  /** The greeting's hidden transcript entry carries the id of the message sent. */
  lemma GreetingEntryMatchesMessage(pushToTalk: bool, uuid: string)
    ensures HiddenMessage(uuid, GreetingText).itemId == SessionUpdateCalls(pushToTalk, true, uuid)[1].event.itemId
    ensures HiddenMessage(uuid, GreetingText).isHidden
  {
  }

  /** The press: nothing unless connected; then interrupt the reply and clear
      the input buffer. */
  function TalkDownCalls(status: SessionStatus): (r: seq<TransportCall>)
    ensures status != Connected <==> r == []
    ensures r != [] ==> r == [Interrupt, SendEvent(InputAudioBufferClear)]
  {
    if status == Connected then [Interrupt, SendEvent(InputAudioBufferClear)] else []
  }

  /** The release: nothing unless connected and speaking; then commit the
      input buffer and ask for a reply. */
  function TalkUpCalls(status: SessionStatus, speaking: bool): (r: seq<TransportCall>)
    ensures (status != Connected || !speaking) <==> r == []
    ensures r != [] ==> r == [SendEvent(InputAudioBufferCommit), SendEvent(ResponseCreate)]
  {
    if status == Connected && speaking then [SendEvent(InputAudioBufferCommit), SendEvent(ResponseCreate)] else []
  }

  /** A press then a release while connected sends the whole push-to-talk
      turn, and leaves the user not speaking. */
  lemma PushToTalkTurn()
    ensures TalkDownCalls(Connected) + TalkUpCalls(Connected, true) ==
            [Interrupt, SendEvent(InputAudioBufferClear), SendEvent(InputAudioBufferCommit), SendEvent(ResponseCreate)]
  {
  }

  /** The text send: nothing for a blank draft; otherwise interrupt and send
      the trimmed draft. */
  function TextMessageCalls(draft: string): (r: seq<TransportCall>)
    ensures r == [] <==> Trim(draft) == []
    ensures r != [] ==> r == [Interrupt, SendUserText(Trim(draft))] && r[1].text != []
  {
    var trimmed := Trim(draft);
    if trimmed == [] then [] else [Interrupt, SendUserText(trimmed)]
  }

  /** The breadcrumb the connected step adds for the active agent. */
  function AgentBreadcrumb(agents: seq<RealtimeAgent>, agentName: string): (r: TranscriptCall)
    ensures r.AddBreadcrumb? && r.title == "Agent: " + agentName
    ensures r.agent.Some? ==> r.agent.value.name == agentName && r.agent.value in agents
    ensures r.agent.None? <==> forall j :: 0 <= j < |agents| ==> agents[j].name != agentName
    ensures r.agent.Some? ==> exists i :: 0 <= i < |agents| && agents[i] == r.agent.value &&
                                forall j :: 0 <= j < i ==> agents[j].name != agentName
  {
    AddBreadcrumb("Agent: " + agentName, FindByKey(agents, AgentNameOf, agentName))
  }

  class SessionController {
    /** The built-in agent sets of the picker, and the scenarios the connect step knows. */
    const builtInAgentSets: map<string, seq<RealtimeAgent>>
    const sdkScenarios: map<string, seq<RealtimeAgent>>
    /** The `agentConfig` URL parameter. */
    const agentConfigParam: Option<string>

    var mergedAgentSets: map<string, seq<RealtimeAgent>>
    var mergedSdkScenarioMap: map<string, seq<RealtimeAgent>>

    var status: SessionStatus
    var isPTTActive: bool
    var isPTTUserSpeaking: bool
    var handoffTriggered: bool
    var selectedAgentName: string
    var selectedAgentConfigSet: Option<seq<RealtimeAgent>>
    var isAudioPlaybackEnabled: bool
    var userText: string

    /** Every call made on the realtime session, oldest first. */
    var calls: seq<TransportCall>
    /** Every call made on the transcript store, oldest first. */
    var transcript: seq<TranscriptCall>

    constructor (builtIns: map<string, seq<RealtimeAgent>>, scenarios: map<string, seq<RealtimeAgent>>,
                 param: Option<string>, audioPlaybackEnabled: bool)
      requires builtIns.Keys == BuiltInAgentSetKeys && scenarios.Keys == SdkScenarioKeys
      ensures builtInAgentSets == builtIns && sdkScenarios == scenarios && agentConfigParam == param
      ensures mergedAgentSets == builtIns && mergedSdkScenarioMap == scenarios
      ensures status == Disconnected && !isPTTActive && !isPTTUserSpeaking && !handoffTriggered
      ensures selectedAgentName == "" && selectedAgentConfigSet == None
      ensures isAudioPlaybackEnabled == audioPlaybackEnabled && userText == ""
      ensures calls == [] && transcript == []
    {
      builtInAgentSets := builtIns;
      sdkScenarios := scenarios;
      agentConfigParam := param;
      mergedAgentSets := builtIns;
      mergedSdkScenarioMap := scenarios;
      status := Disconnected;
      isPTTActive := false;
      isPTTUserSpeaking := false;
      handoffTriggered := false;
      selectedAgentName := "";
      selectedAgentConfigSet := None;
      isAudioPlaybackEnabled := audioPlaybackEnabled;
      userText := "";
      calls := [];
      transcript := [];
    }

    /** The agent tables, the settings and the draft are as they were. */
    twostate predicate SettingsKept()
      reads this
    {
      mergedAgentSets == old(mergedAgentSets) && mergedSdkScenarioMap == old(mergedSdkScenarioMap) &&
      isPTTActive == old(isPTTActive) && isAudioPlaybackEnabled == old(isAudioPlaybackEnabled) &&
      userText == old(userText)
    }

    /** The active agent, its set and the handoff latch are as they were. */
    twostate predicate SelectionKept()
      reads this
    {
      selectedAgentName == old(selectedAgentName) && selectedAgentConfigSet == old(selectedAgentConfigSet) &&
      handoffTriggered == old(handoffTriggered)
    }

    /** The merged tables follow a new set of custom scenarios, which win
        over built-in ones of the same key. */
    method OnCustomAgentSetsChanged(custom: map<string, seq<RealtimeAgent>>)
      modifies this
      ensures mergedAgentSets == MergeScenarios(builtInAgentSets, custom)
      ensures mergedSdkScenarioMap == MergeScenarios(sdkScenarios, custom)
      ensures status == old(status) && isPTTUserSpeaking == old(isPTTUserSpeaking) && SelectionKept()
      ensures isPTTActive == old(isPTTActive) && isAudioPlaybackEnabled == old(isAudioPlaybackEnabled)
      ensures userText == old(userText) && calls == old(calls) && transcript == old(transcript)
    {
      mergedAgentSets := MergeScenarios(builtInAgentSets, custom);
      mergedSdkScenarioMap := MergeScenarios(sdkScenarios, custom);
    }

    /** The agent-set effect: once custom agents are loaded, a known set
        becomes the active set with its first agent selected; a missing or
        unknown key asks for a reload with the default key instead. */
    method AgentSetEffect(customAgentsLoaded: bool) returns (redirect: Option<string>)
      modifies this
      ensures var known := customAgentsLoaded && agentConfigParam.Some? && agentConfigParam.value != "" &&
                           agentConfigParam.value in mergedAgentSets;
              if known then
                var agents := mergedAgentSets[agentConfigParam.value];
                redirect == None && selectedAgentConfigSet == Some(agents) &&
                selectedAgentName == (if |agents| > 0 then agents[0].name else "")
              else
                redirect == (if customAgentsLoaded then Some(DefaultAgentSetKey) else None) &&
                selectedAgentName == old(selectedAgentName) && selectedAgentConfigSet == old(selectedAgentConfigSet)
      ensures handoffTriggered == old(handoffTriggered) && status == old(status)
      ensures isPTTUserSpeaking == old(isPTTUserSpeaking) && SettingsKept()
      ensures calls == old(calls) && transcript == old(transcript)
    {
      if !customAgentsLoaded {
        return None;
      }
      if agentConfigParam.None? || agentConfigParam.value == "" || agentConfigParam.value !in mergedAgentSets {
        return Some(DefaultAgentSetKey);
      }
      var agents := mergedAgentSets[agentConfigParam.value];
      selectedAgentName := if |agents| > 0 then agents[0].name else "";
      selectedAgentConfigSet := Some(agents);
      redirect := None;
    }

    /** `connectToRealtime`: nothing unless the key names a known scenario
        and the session is disconnected. Otherwise the status first becomes
        connecting; a missing key or a failed fetch ends disconnected without
        connecting; with a key, the session connects with the reordered
        agents and the key's guardrail, and a connect that throws ends
        disconnected. */
    method ConnectToRealtime(credential: CredentialOutcome, connectThrows: bool)
      modifies this
      ensures var key := AgentSetKey(agentConfigParam);
              if key !in mergedSdkScenarioMap || old(status) != Disconnected then
                status == old(status) && calls == old(calls)
              else if !HasKey(credential) then
                status == Disconnected && calls == old(calls)
              else
                calls == old(calls) + [Connect(Reordered(mergedSdkScenarioMap[key], selectedAgentName), PolicyFor(key))] &&
                status == (if connectThrows then Disconnected else Connecting)
      ensures isPTTUserSpeaking == old(isPTTUserSpeaking) && transcript == old(transcript)
      ensures SelectionKept() && SettingsKept()
    {
      var agentSetKey := AgentSetKey(agentConfigParam);
      if agentSetKey in mergedSdkScenarioMap {
        if status != Disconnected {
          return;
        }
        status := Connecting;
        if !HasKey(credential) {
          // the fetch itself reports a missing key; a throw lands in the catch
          status := Disconnected;
          return;
        }
        var reorderedAgents := ReorderAgents(mergedSdkScenarioMap[agentSetKey], selectedAgentName);
        var guardrail := PolicyFor(agentSetKey);
        calls := calls + [Connect(reorderedAgents, guardrail)];
        if connectThrows {
          status := Disconnected;
        }
      }
    }

    /** The SDK's connection-state callback. */
    method OnConnectionChange(newStatus: SessionStatus)
      modifies this
      ensures status == newStatus
      ensures isPTTUserSpeaking == old(isPTTUserSpeaking) && SelectionKept() && SettingsKept()
      ensures calls == old(calls) && transcript == old(transcript)
    {
      status := newStatus;
    }

    /** `disconnectFromRealtime`: disconnect, and the user is no longer speaking. */
    method DisconnectFromRealtime()
      modifies this
      ensures calls == old(calls) + [Disconnect]
      ensures status == Disconnected && !isPTTUserSpeaking
      ensures SelectionKept() && SettingsKept() && transcript == old(transcript)
    {
      calls := calls + [Disconnect];
      status := Disconnected;
      isPTTUserSpeaking := false;
    }

    /** A hidden user turn: the transcript entry and the message share one id. */
    method SendSimulatedUserMessage(text: string, uuid: string)
      modifies this
      ensures transcript == old(transcript) + [HiddenMessage(uuid, text)]
      ensures calls == old(calls) + SimulatedMessageCalls(MessageId(uuid), text)
      ensures status == old(status) && isPTTUserSpeaking == old(isPTTUserSpeaking)
      ensures SelectionKept() && SettingsKept()
    {
      var id := MessageId(uuid);
      transcript := transcript + [AddMessage(id, "user", text, true)];
      calls := calls + [SendEvent(ConversationItemCreate(id, text))];
      calls := calls + [SendEvent(ResponseCreate)];
    }

    /** `updateSession`: the turn-detection update, then the greeting when asked for. */
    method UpdateSession(shouldTriggerResponse: bool, uuid: string)
      modifies this
      ensures calls == old(calls) + SessionUpdateCalls(isPTTActive, shouldTriggerResponse, uuid)
      ensures transcript == old(transcript) + (if shouldTriggerResponse then [HiddenMessage(uuid, GreetingText)] else [])
      ensures status == old(status) && isPTTUserSpeaking == old(isPTTUserSpeaking)
      ensures SelectionKept() && SettingsKept()
    {
      var turnDetection := TurnDetectionFor(isPTTActive);
      calls := calls + [SendEvent(SessionUpdate(turnDetection))];
      if shouldTriggerResponse {
        SendSimulatedUserMessage(GreetingText, uuid);
      }
    }

    /** `handleSendTextMessage`: a non-blank draft is sent trimmed and cleared;
        a blank one stays and nothing is sent. A send that throws is caught. */
    method HandleSendTextMessage()
      modifies this
      ensures calls == old(calls) + TextMessageCalls(old(userText))
      ensures userText == (if Trim(old(userText)) == [] then old(userText) else "")
      ensures status == old(status) && isPTTUserSpeaking == old(isPTTUserSpeaking) && SelectionKept()
      ensures mergedAgentSets == old(mergedAgentSets) && mergedSdkScenarioMap == old(mergedSdkScenarioMap)
      ensures isPTTActive == old(isPTTActive) && isAudioPlaybackEnabled == old(isAudioPlaybackEnabled)
      ensures transcript == old(transcript)
    {
      var trimmed := Trim(userText);
      if trimmed == [] {
        return;
      }
      calls := calls + [Interrupt];
      calls := calls + [SendUserText(trimmed)];
      userText := "";
    }

    /** The draft text box. */
    method SetUserText(text: string)
      modifies this
      ensures userText == text
      ensures status == old(status) && isPTTUserSpeaking == old(isPTTUserSpeaking) && SelectionKept()
      ensures mergedAgentSets == old(mergedAgentSets) && mergedSdkScenarioMap == old(mergedSdkScenarioMap)
      ensures isPTTActive == old(isPTTActive) && isAudioPlaybackEnabled == old(isAudioPlaybackEnabled)
      ensures calls == old(calls) && transcript == old(transcript)
    {
      userText := text;
    }

    /** The talk button pressed: when connected, the user is speaking. */
    method HandleTalkButtonDown()
      modifies this
      ensures calls == old(calls) + TalkDownCalls(old(status))
      ensures isPTTUserSpeaking == (old(status) == Connected || old(isPTTUserSpeaking))
      ensures status == old(status) && SelectionKept() && SettingsKept() && transcript == old(transcript)
    {
      if status != Connected {
        return;
      }
      calls := calls + [Interrupt];
      isPTTUserSpeaking := true;
      calls := calls + [SendEvent(InputAudioBufferClear)];
    }

    /** The talk button released: when connected and speaking, the user stops. */
    method HandleTalkButtonUp()
      modifies this
      ensures calls == old(calls) + TalkUpCalls(old(status), old(isPTTUserSpeaking))
      ensures isPTTUserSpeaking == (old(isPTTUserSpeaking) && old(status) != Connected)
      ensures status == old(status) && SelectionKept() && SettingsKept() && transcript == old(transcript)
    {
      if status != Connected || !isPTTUserSpeaking {
        return;
      }
      isPTTUserSpeaking := false;
      calls := calls + [SendEvent(InputAudioBufferCommit)];
      calls := calls + [SendEvent(ResponseCreate)];
    }

    /** The connect button: a live or pending session is disconnected, any
        other attempts a connect. */
    method OnToggleConnection(credential: CredentialOutcome, connectThrows: bool)
      modifies this
      ensures old(status) != Disconnected ==>
                status == Disconnected && !isPTTUserSpeaking && calls == old(calls) + [Disconnect]
      ensures old(status) == Disconnected ==>
                var key := AgentSetKey(agentConfigParam);
                if key !in mergedSdkScenarioMap then
                  status == Disconnected && calls == old(calls)
                else if !HasKey(credential) then
                  status == Disconnected && calls == old(calls)
                else
                  calls == old(calls) + [Connect(Reordered(mergedSdkScenarioMap[key], selectedAgentName), PolicyFor(key))] &&
                  status == (if connectThrows then Disconnected else Connecting)
      ensures old(status) == Disconnected ==> isPTTUserSpeaking == old(isPTTUserSpeaking)
      ensures SelectionKept() && SettingsKept() && transcript == old(transcript)
    {
      if status == Connected || status == Connecting {
        DisconnectFromRealtime();
      } else {
        ConnectToRealtime(credential, connectThrows);
      }
    }

    /** The SDK's handoff callback: the latch is set and the new agent becomes active. */
    method OnAgentHandoff(agentName: string)
      modifies this
      ensures handoffTriggered && selectedAgentName == agentName
      ensures selectedAgentConfigSet == old(selectedAgentConfigSet)
      ensures status == old(status) && isPTTUserSpeaking == old(isPTTUserSpeaking) && SettingsKept()
      ensures calls == old(calls) && transcript == old(transcript)
    {
      handoffTriggered := true;
      selectedAgentName := agentName;
    }

    /** Picking another agent in the set disconnects first. */
    method HandleSelectedAgentChange(agentName: string)
      modifies this
      ensures selectedAgentName == agentName
      ensures selectedAgentConfigSet == old(selectedAgentConfigSet) && handoffTriggered == old(handoffTriggered)
      ensures calls == old(calls) + [Disconnect]
      ensures status == Disconnected && !isPTTUserSpeaking
      ensures SettingsKept() && transcript == old(transcript)
    {
      DisconnectFromRealtime();
      selectedAgentName := agentName;
    }

    /** The auto-connect effect: with an agent selected and no session, connect. */
    method AutoConnectEffect(credential: CredentialOutcome, connectThrows: bool)
      modifies this
      ensures selectedAgentName == "" || old(status) != Disconnected ==>
                status == old(status) && calls == old(calls)
      ensures selectedAgentName != "" && old(status) == Disconnected ==>
                var key := AgentSetKey(agentConfigParam);
                if key !in mergedSdkScenarioMap || !HasKey(credential) then
                  status == Disconnected && calls == old(calls)
                else
                  calls == old(calls) + [Connect(Reordered(mergedSdkScenarioMap[key], selectedAgentName), PolicyFor(key))] &&
                  status == (if connectThrows then Disconnected else Connecting)
      ensures isPTTUserSpeaking == old(isPTTUserSpeaking) && transcript == old(transcript)
      ensures SelectionKept() && SettingsKept()
    {
      if selectedAgentName != "" && status == Disconnected {
        ConnectToRealtime(credential, connectThrows);
      }
    }

    /** The connected effect: with a session, an active set and an agent
        name, a breadcrumb for the agent and a session update, greeting
        exactly when no handoff led here; the latch is cleared. */
    method ConnectedEffect(uuid: string)
      modifies this
      ensures var fires := old(status) == Connected && old(selectedAgentConfigSet).Some? && old(selectedAgentName) != "";
              if fires then
                calls == old(calls) + SessionUpdateCalls(isPTTActive, !old(handoffTriggered), uuid) &&
                transcript == old(transcript) + [AgentBreadcrumb(old(selectedAgentConfigSet).value, old(selectedAgentName))] +
                              (if old(handoffTriggered) then [] else [HiddenMessage(uuid, GreetingText)]) &&
                !handoffTriggered
              else
                calls == old(calls) && transcript == old(transcript) && handoffTriggered == old(handoffTriggered)
      ensures selectedAgentName == old(selectedAgentName) && selectedAgentConfigSet == old(selectedAgentConfigSet)
      ensures status == old(status) && isPTTUserSpeaking == old(isPTTUserSpeaking) && SettingsKept()
    {
      if status == Connected && selectedAgentConfigSet.Some? && selectedAgentName != "" {
        transcript := transcript + [AgentBreadcrumb(selectedAgentConfigSet.value, selectedAgentName)];
        UpdateSession(!handoffTriggered, uuid);
        handoffTriggered := false;
      }
    }

    /** The push-to-talk switch. */
    method SetPushToTalkActive(active: bool)
      modifies this
      ensures isPTTActive == active
      ensures status == old(status) && isPTTUserSpeaking == old(isPTTUserSpeaking) && SelectionKept()
      ensures mergedAgentSets == old(mergedAgentSets) && mergedSdkScenarioMap == old(mergedSdkScenarioMap)
      ensures isAudioPlaybackEnabled == old(isAudioPlaybackEnabled) && userText == old(userText)
      ensures calls == old(calls) && transcript == old(transcript)
    {
      isPTTActive := active;
    }

    /** The push-to-talk effect: a live session gets the new turn detection, without a greeting. */
    method PushToTalkEffect(uuid: string)
      modifies this
      ensures calls == old(calls) + (if status == Connected then SessionUpdateCalls(isPTTActive, false, uuid) else [])
      ensures status == old(status) && isPTTUserSpeaking == old(isPTTUserSpeaking) && SelectionKept() && SettingsKept()
      ensures transcript == old(transcript)
    {
      if status == Connected {
        UpdateSession(false, uuid);
      }
    }

    /** The playback switch. */
    method SetAudioPlaybackEnabled(enabled: bool)
      modifies this
      ensures isAudioPlaybackEnabled == enabled
      ensures status == old(status) && isPTTUserSpeaking == old(isPTTUserSpeaking) && SelectionKept()
      ensures mergedAgentSets == old(mergedAgentSets) && mergedSdkScenarioMap == old(mergedSdkScenarioMap)
      ensures isPTTActive == old(isPTTActive) && userText == old(userText)
      ensures calls == old(calls) && transcript == old(transcript)
    {
      isAudioPlaybackEnabled := enabled;
    }

    /** The playback effect: the session is muted exactly when playback is off. */
    method AudioPlaybackEffect()
      modifies this
      ensures calls == old(calls) + [Mute(!isAudioPlaybackEnabled)]
      ensures status == old(status) && isPTTUserSpeaking == old(isPTTUserSpeaking) && SelectionKept() && SettingsKept()
      ensures transcript == old(transcript)
    {
      calls := calls + [Mute(!isAudioPlaybackEnabled)];
    }

    /** The mute sync: a live session is muted exactly when playback is off. */
    method MuteSyncEffect()
      modifies this
      ensures calls == old(calls) + (if status == Connected then [Mute(!isAudioPlaybackEnabled)] else [])
      ensures status == old(status) && isPTTUserSpeaking == old(isPTTUserSpeaking) && SelectionKept() && SettingsKept()
      ensures transcript == old(transcript)
    {
      if status == Connected {
        calls := calls + [Mute(!isAudioPlaybackEnabled)];
      }
    }
  }
}
