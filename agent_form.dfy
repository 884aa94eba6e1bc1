/** The agent editor's state and handlers
    (src/app/builder/components/AgentForm.tsx): validation into an error map
    keyed by field, saving only a valid agent, and the tool-list edits. */
module AgentForm {
  import opened Lists
  import opened Text
  import opened BuilderTypes

  const NameRequired := "Name is required"
  const NameFormat := "Name must start with a letter and contain only letters, numbers, and underscores"
  const InstructionsRequired := "Instructions are required"
  const ToolNameRequired := "Tool name is required"
  const ToolDescriptionRequired := "Tool description is required"

  /** The keys of the error map: `name`, `instructions`, `tool_${index}_name`
      and `tool_${index}_description`. */
  datatype ErrorKey = NameKey | InstructionsKey | ToolNameKey(index: nat) | ToolDescriptionKey(index: nat)

  /** The string each key stands for in the source's error object. */
  function KeyText(k: ErrorKey): string {
    match k
    case NameKey => "name"
    case InstructionsKey => "instructions"
    case ToolNameKey(i) => "tool_" + NatToString(i) + "_name"
    case ToolDescriptionKey(i) => "tool_" + NatToString(i) + "_description"
  }

  predicate IsAsciiLetter(c: char) {
    'a' <= c <= 'z' || 'A' <= c <= 'Z'
  }

  predicate IsNameChar(c: char) {
    IsAsciiLetter(c) || '0' <= c <= '9' || c == '_'
  }

  /** The name pattern `^[a-zA-Z][a-zA-Z0-9_]*$`, matched against the untrimmed name. */
  predicate IsValidName(s: string) {
    |s| >= 1 && IsAsciiLetter(s[0]) && forall i :: 1 <= i < |s| ==> IsNameChar(s[i])
  }

  /** The errors for the name and the instructions. */
  function FieldErrors(agent: AgentConfig): map<ErrorKey, string> {
    var e := if IsBlank(agent.name) then map[NameKey := NameRequired]
             else if !IsValidName(agent.name) then map[NameKey := NameFormat]
             else map[];
    if IsBlank(agent.instructions) then e[InstructionsKey := InstructionsRequired] else e
  }

  /** `errors` with the entries for the tool at `index` added. */
  function AddToolErrors(errors: map<ErrorKey, string>, tool: ToolConfig, index: nat): map<ErrorKey, string> {
    var e := if IsBlank(tool.name) then errors[ToolNameKey(index) := ToolNameRequired] else errors;
    if IsBlank(tool.description) then e[ToolDescriptionKey(index) := ToolDescriptionRequired] else e
  }

  /** `errors` with the entries for the first `n` tools added. */
  function AddToolErrorsUpTo(errors: map<ErrorKey, string>, tools: seq<ToolConfig>, n: nat): map<ErrorKey, string>
    requires n <= |tools|
  {
    if n == 0 then errors else AddToolErrors(AddToolErrorsUpTo(errors, tools, n - 1), tools[n - 1], n - 1)
  }

  /** The error map `validate` builds for `agent`. */
  function ValidationErrors(agent: AgentConfig): map<ErrorKey, string> {
    AddToolErrorsUpTo(FieldErrors(agent), agent.tools, |agent.tools|)
  }

  predicate IsToolKey(k: ErrorKey) {
    k.ToolNameKey? || k.ToolDescriptionKey?
  }

  /** The condition under which `validate` reports success. */
  predicate IsValidAgent(agent: AgentConfig) {
    && !IsBlank(agent.name) && IsValidName(agent.name)
    && !IsBlank(agent.instructions)
    && forall i :: 0 <= i < |agent.tools| ==>
         !IsBlank(agent.tools[i].name) && !IsBlank(agent.tools[i].description)
  }

  class AgentFormModel {
    var agent: AgentConfig
    var errors: map<ErrorKey, string>

    constructor (initialAgent: AgentConfig)
      ensures agent == initialAgent && errors == map[]
    {
      agent := initialAgent;
      errors := map[];
    }

    /** `validate`: records the error map and reports whether it is empty. */
    method Validate() returns (valid: bool)
      modifies this
      ensures agent == old(agent)
      ensures errors == ValidationErrors(agent)
      ensures valid <==> errors == map[]
    {
      var newErrors: map<ErrorKey, string> := map[];
      if IsBlank(agent.name) {
        newErrors := newErrors[NameKey := NameRequired];
      } else if !IsValidName(agent.name) {
        newErrors := newErrors[NameKey := NameFormat];
      }
      if IsBlank(agent.instructions) {
        newErrors := newErrors[InstructionsKey := InstructionsRequired];
      }
      var tools := agent.tools;
      for index := 0 to |tools|
        invariant newErrors == AddToolErrorsUpTo(FieldErrors(agent), tools, index)
      {
        if IsBlank(tools[index].name) {
          newErrors := newErrors[ToolNameKey(index) := ToolNameRequired];
        }
        if IsBlank(tools[index].description) {
          newErrors := newErrors[ToolDescriptionKey(index) := ToolDescriptionRequired];
        }
      }
      errors := newErrors;
      valid := |newErrors| == 0;
    }

    /** `handleSave`: validates, and hands the agent on only when it is valid. */
    method HandleSave() returns (saved: Option<AgentConfig>)
      modifies this
      ensures agent == old(agent)
      ensures errors == ValidationErrors(agent)
      ensures saved == if errors == map[] then Some(agent) else None
    {
      var valid := Validate();
      if valid {
        saved := Some(agent);
      } else {
        saved := None;
      }
    }

    /** `handleAddTool`: appends one empty tool. */
    method HandleAddTool(toolId: string)
      modifies this
      ensures agent == old(agent).(tools := old(agent).tools + [CreateEmptyTool(toolId)])
      ensures errors == old(errors)
    {
      agent := agent.(tools := agent.tools + [CreateEmptyTool(toolId)]);
    }

    /** `handleUpdateTool`: replaces the tool at `index` only. The editor calls
        it with the index of a tool it is showing. */
    method HandleUpdateTool(index: nat, tool: ToolConfig)
      requires index < |agent.tools|
      modifies this
      ensures agent == old(agent).(tools := old(agent).tools[index := tool])
      ensures errors == old(errors)
    {
      var newTools := agent.tools;
      newTools := newTools[index := tool];
      agent := agent.(tools := newTools);
    }

    /** `handleDeleteTool`: drops the tool at `index`, keeping the others in order. */
    method HandleDeleteTool(index: nat)
      modifies this
      ensures agent == old(agent).(tools := RemoveAt(old(agent).tools, index))
      ensures errors == old(errors)
    {
      agent := agent.(tools := RemoveAt(agent.tools, index));
    }
  }

  /** Distinct keys are distinct strings in the source's error object. */
  lemma KeyTextInjective(k: ErrorKey, l: ErrorKey)
    requires KeyText(k) == KeyText(l)
    ensures k == l
  {
    var t, u := KeyText(k), KeyText(l);
    if k.ToolNameKey? || k.ToolDescriptionKey? {
      assert t[0] == 't';
      assert t[|t| - 1] == (if k.ToolNameKey? then 'e' else 'n');
    }
    if l.ToolNameKey? || l.ToolDescriptionKey? {
      assert u[0] == 't';
      assert u[|u| - 1] == (if l.ToolNameKey? then 'e' else 'n');
    }
    if (k.ToolNameKey? || k.ToolDescriptionKey?) && (l.ToolNameKey? || l.ToolDescriptionKey?) {
      var ni, nj := NatToString(k.index), NatToString(l.index);
      assert k.ToolNameKey? <==> l.ToolNameKey?;
      assert |ni| == |nj|;
      assert t[5..5 + |ni|] == ni;
      assert u[5..5 + |nj|] == nj;
      NatToStringInjective(k.index, l.index);
    }
  }

  /** Tool `i`'s entries: for a tool among the first `n`, present exactly when
      the field is blank, with the fixed message; otherwise as in `errors`. */
  lemma {:induction false} AddToolErrorsUpToAt(errors: map<ErrorKey, string>, tools: seq<ToolConfig>, n: nat, i: nat)
    requires n <= |tools| && i < |tools|
    requires forall k :: k in errors ==> !IsToolKey(k)
    ensures ToolNameKey(i) in AddToolErrorsUpTo(errors, tools, n) <==> i < n && IsBlank(tools[i].name)
    ensures ToolDescriptionKey(i) in AddToolErrorsUpTo(errors, tools, n) <==>
              i < n && IsBlank(tools[i].description)
    ensures ToolNameKey(i) in AddToolErrorsUpTo(errors, tools, n) ==>
              AddToolErrorsUpTo(errors, tools, n)[ToolNameKey(i)] == ToolNameRequired
    ensures ToolDescriptionKey(i) in AddToolErrorsUpTo(errors, tools, n) ==>
              AddToolErrorsUpTo(errors, tools, n)[ToolDescriptionKey(i)] == ToolDescriptionRequired
  {
    if n > 0 {
      AddToolErrorsUpToAt(errors, tools, n - 1, i);
    } else {
      assert !IsToolKey(ToolNameKey(i)) ==> ToolNameKey(i) !in errors;
      assert !IsToolKey(ToolDescriptionKey(i)) ==> ToolDescriptionKey(i) !in errors;
    }
  }

  /** Adding tool entries leaves every other entry as it was, and adds only
      keys of the first `n` tools. */
  lemma {:induction false} AddToolErrorsUpToKeys(errors: map<ErrorKey, string>, tools: seq<ToolConfig>, n: nat, k: ErrorKey)
    requires n <= |tools|
    ensures !IsToolKey(k) ==> (k in AddToolErrorsUpTo(errors, tools, n) <==> k in errors)
    ensures !IsToolKey(k) && k in errors ==> AddToolErrorsUpTo(errors, tools, n)[k] == errors[k]
    ensures k in AddToolErrorsUpTo(errors, tools, n) && k !in errors ==> IsToolKey(k) && k.index < n
  {
    if n > 0 {
      AddToolErrorsUpToKeys(errors, tools, n - 1, k);
    }
  }

  /** The `name` entry: present exactly when the name is blank or malformed,
      with the "required" message taking precedence. */
  lemma NameError(agent: AgentConfig)
    ensures NameKey in ValidationErrors(agent) <==> IsBlank(agent.name) || !IsValidName(agent.name)
    ensures IsBlank(agent.name) ==> ValidationErrors(agent)[NameKey] == NameRequired
    ensures !IsBlank(agent.name) && !IsValidName(agent.name) ==>
              ValidationErrors(agent)[NameKey] == NameFormat
  {
    AddToolErrorsUpToKeys(FieldErrors(agent), agent.tools, |agent.tools|, NameKey);
  }

  /** The `instructions` entry: present exactly when the instructions are blank. */
  lemma InstructionsError(agent: AgentConfig)
    ensures InstructionsKey in ValidationErrors(agent) <==> IsBlank(agent.instructions)
    ensures IsBlank(agent.instructions) ==>
              ValidationErrors(agent)[InstructionsKey] == InstructionsRequired
  {
    AddToolErrorsUpToKeys(FieldErrors(agent), agent.tools, |agent.tools|, InstructionsKey);
  }

  /** The entries of tool `i`: present exactly when its name, respectively its
      description, is blank. */
  lemma ToolError(agent: AgentConfig, i: nat)
    requires i < |agent.tools|
    ensures ToolNameKey(i) in ValidationErrors(agent) <==> IsBlank(agent.tools[i].name)
    ensures ToolDescriptionKey(i) in ValidationErrors(agent) <==> IsBlank(agent.tools[i].description)
    ensures IsBlank(agent.tools[i].name) ==> ValidationErrors(agent)[ToolNameKey(i)] == ToolNameRequired
    ensures IsBlank(agent.tools[i].description) ==>
              ValidationErrors(agent)[ToolDescriptionKey(i)] == ToolDescriptionRequired
  {
    AddToolErrorsUpToAt(FieldErrors(agent), agent.tools, |agent.tools|, i);
  }

  /** Every key of the error map is `name`, `instructions` or a key of one of the agent's tools. */
  lemma ErrorKeys(agent: AgentConfig, k: ErrorKey)
    requires k in ValidationErrors(agent)
    ensures IsToolKey(k) ==> k.index < |agent.tools|
  {
    AddToolErrorsUpToKeys(FieldErrors(agent), agent.tools, |agent.tools|, k);
  }

  /** `validate` succeeds, and `handleSave` hands the agent on, exactly when
      the name is present and well formed, the instructions are present, and
      every tool has a name and a description. */
  lemma NoErrorsIffValid(agent: AgentConfig)
    ensures ValidationErrors(agent) == map[] <==> IsValidAgent(agent)
  {
    NameError(agent);
    InstructionsError(agent);
    if ValidationErrors(agent) == map[] {
      forall i | 0 <= i < |agent.tools|
        ensures !IsBlank(agent.tools[i].name) && !IsBlank(agent.tools[i].description)
      {
        ToolError(agent, i);
      }
    } else if IsValidAgent(agent) {
      var k :| k in ValidationErrors(agent);
      ErrorKeys(agent, k);
      if IsToolKey(k) {
        ToolError(agent, k.index);
      }
    }
  }

  /** A fresh agent fails validation on exactly its name and its instructions. */
  lemma EmptyAgentErrors(id: string, createdNow: string, updatedNow: string)
    ensures ValidationErrors(CreateEmptyAgent(id, createdNow, updatedNow))
            == map[NameKey := NameRequired, InstructionsKey := InstructionsRequired]
  {
    assert IsBlank("");
  }

  /** A fresh tool fails validation on its name and its description. */
  lemma EmptyToolErrors(toolId: string, index: nat)
    ensures AddToolErrors(map[], CreateEmptyTool(toolId), index)
            == map[ToolNameKey(index) := ToolNameRequired, ToolDescriptionKey(index) := ToolDescriptionRequired]
  {
    assert IsBlank("");
  }
}
