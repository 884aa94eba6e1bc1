/** The tool editor (src/app/builder/components/ToolBuilder.tsx): partial
    updates of a tool, the parameter-list edits, and the header labels. */
module ToolBuilder {
  import opened Lists
  import opened Text
  import opened BuilderTypes

  /** A `Partial<ToolConfig>`: the fields an update sets. */
  datatype ToolPatch = ToolPatch(
    id: Option<string>,
    name: Option<string>,
    description: Option<string>,
    parameters: Option<seq<ToolParameter>>)

  /** A `Partial<ToolParameter>`. For `enum`, `Some(None)` is an update that
      sets the field to `undefined`. */
  datatype ParameterPatch = ParameterPatch(
    name: Option<string>,
    paramType: Option<ParameterType>,
    description: Option<string>,
    required: Option<bool>,
    enumValues: Option<Option<seq<string>>>)

  const NoToolChange := ToolPatch(None, None, None, None)
  const NoParameterChange := ParameterPatch(None, None, None, None, None)

  function Pick<T>(update: Option<T>, current: T): T {
    if update.Some? then update.value else current
  }

  /** `{ ...tool, ...updates }`: every field the patch sets is overwritten;
      every other field is kept. */
  function UpdateTool(tool: ToolConfig, u: ToolPatch): (r: ToolConfig)
    ensures u.id.Some? ==> r.id == u.id.value
    ensures u.id.None? ==> r.id == tool.id
    ensures u.name.Some? ==> r.name == u.name.value
    ensures u.name.None? ==> r.name == tool.name
    ensures u.description.Some? ==> r.description == u.description.value
    ensures u.description.None? ==> r.description == tool.description
    ensures u.parameters.Some? ==> r.parameters == u.parameters.value
    ensures u.parameters.None? ==> r.parameters == tool.parameters
  {
    ToolConfig(Pick(u.id, tool.id), Pick(u.name, tool.name), Pick(u.description, tool.description),
               Pick(u.parameters, tool.parameters))
  }

  /** `{ ...param, ...updates }` for one parameter. */
  function MergeParameter(p: ToolParameter, u: ParameterPatch): (r: ToolParameter)
    ensures r.name == Pick(u.name, p.name) && r.paramType == Pick(u.paramType, p.paramType)
    ensures r.description == Pick(u.description, p.description)
    ensures r.required == Pick(u.required, p.required)
    ensures r.enumValues == Pick(u.enumValues, p.enumValues)
  {
    ToolParameter(Pick(u.name, p.name), Pick(u.paramType, p.paramType), Pick(u.description, p.description),
                  Pick(u.required, p.required), Pick(u.enumValues, p.enumValues))
  }

  /** `addParameter`: one default parameter is appended; the others and the
      rest of the tool are unchanged. */
  function AddParameter(tool: ToolConfig): (r: ToolConfig)
    ensures r.id == tool.id && r.name == tool.name && r.description == tool.description
    ensures |r.parameters| == |tool.parameters| + 1
    ensures r.parameters[..|tool.parameters|] == tool.parameters
    ensures r.parameters[|tool.parameters|] == CreateEmptyParameter()
  {
    UpdateTool(tool, NoToolChange.(parameters := Some(tool.parameters + [CreateEmptyParameter()])))
  }

  /** `updateParameter(k, u)`: parameter `k` has `u` merged in; the length and
      every other parameter are unchanged. The editor calls it with the index
      of a parameter it is showing. */
  function UpdateParameter(tool: ToolConfig, k: nat, u: ParameterPatch): (r: ToolConfig)
    requires k < |tool.parameters|
    ensures r.id == tool.id && r.name == tool.name && r.description == tool.description
    ensures |r.parameters| == |tool.parameters|
    ensures r.parameters[k] == MergeParameter(tool.parameters[k], u)
    ensures forall j :: 0 <= j < |r.parameters| && j != k ==> r.parameters[j] == tool.parameters[j]
  {
    var newParams := tool.parameters[k := MergeParameter(tool.parameters[k], u)];
    UpdateTool(tool, NoToolChange.(parameters := Some(newParams)))
  }

  /** `deleteParameter(k)`: the parameter at `k` is dropped and the others keep
      their order; an index out of range changes nothing. */
  function DeleteParameter(tool: ToolConfig, k: nat): (r: ToolConfig)
    ensures r.id == tool.id && r.name == tool.name && r.description == tool.description
    ensures k < |tool.parameters| ==> |r.parameters| == |tool.parameters| - 1
    ensures k < |tool.parameters| ==> forall j :: 0 <= j < k ==> r.parameters[j] == tool.parameters[j]
    ensures k < |tool.parameters| ==>
              forall j :: k <= j < |r.parameters| ==> r.parameters[j] == tool.parameters[j + 1]
    ensures |tool.parameters| <= k ==> r == tool
  {
    UpdateTool(tool, NoToolChange.(parameters := Some(RemoveAt(tool.parameters, k))))
  }

  /** The header: the tool's name, or `Tool {index + 1}` while it has none. */
  function HeaderLabel(tool: ToolConfig, index: nat): (r: string)
    ensures tool.name != "" ==> r == tool.name
    ensures tool.name == "" ==> r == "Tool " + NatToString(index + 1)
  {
    if tool.name != "" then tool.name else "Tool " + NatToString(index + 1)
  }

  /** The parameter badge: absent for no parameters, otherwise the count
      followed by ` param` or ` params`. */
  function ParameterCountLabel(n: nat): (r: Option<string>)
    ensures r.None? <==> n == 0
  {
    if n == 0 then None
    else Some(NatToString(n) + " param" + (if n != 1 then "s" else ""))
  }

  /** An empty patch changes nothing, and applying a patch twice is applying it once. */
  lemma UpdateToolLaws(tool: ToolConfig, u: ToolPatch)
    ensures UpdateTool(tool, NoToolChange) == tool
    ensures UpdateTool(UpdateTool(tool, u), u) == UpdateTool(tool, u)
  {
  }

  /** A later patch wins on the fields both set. */
  lemma UpdateToolCompose(tool: ToolConfig, u: ToolPatch, v: ToolPatch)
    ensures v.name.Some? ==> UpdateTool(UpdateTool(tool, u), v).name == v.name.value
    ensures v.name.None? ==> UpdateTool(UpdateTool(tool, u), v).name == UpdateTool(tool, u).name
  {
  }

  /** Deleting the parameter just added gives the tool back. */
  lemma DeleteAfterAdd(tool: ToolConfig)
    ensures DeleteParameter(AddParameter(tool), |tool.parameters|) == tool
  {
    assert AddParameter(tool).parameters[..|tool.parameters|] == tool.parameters;
  }

  /** Updating a parameter with an empty patch changes nothing. */
  lemma UpdateParameterEmpty(tool: ToolConfig, k: nat)
    requires k < |tool.parameters|
    ensures UpdateParameter(tool, k, NoParameterChange) == tool
  {
    assert tool.parameters[k := tool.parameters[k]] == tool.parameters;
  }

  /** The badge reads as a plural exactly when the count differs from one. */
  lemma ParameterCountLabelSingularIffOne(n: nat)
    requires n > 0
    ensures EndsWith(ParameterCountLabel(n).value, "s") <==> n != 1
  {
    var digits := NatToString(n);
    var r := ParameterCountLabel(n).value;
    if n == 1 {
      assert r == "1 param";
    } else {
      assert r == digits + " params";
      assert r[|r| - 1..] == "s";
    }
  }

  /** The badge opens with the count: a run of digits, ended by a space,
      that reads back as `n`. */
  lemma ParameterCountLabelShowsCount(n: nat)
    requires n > 0
    ensures var r := ParameterCountLabel(n).value;
            var k := |NatToString(n)|;
            k < |r| && r[k] == ' ' && (forall i :: 0 <= i < k ==> IsDigit(r[i])) &&
            ParseNat(r[..k]) == n
  {
    var digits := NatToString(n);
    var r := ParameterCountLabel(n).value;
    assert r == digits + (" param" + (if n != 1 then "s" else ""));
    assert r[..|digits|] == digits;
    ParseNatToString(n);
  }

  /** The header is never empty. */
  lemma HeaderLabelNonEmpty(tool: ToolConfig, index: nat)
    ensures HeaderLabel(tool, index) != ""
  {
    if tool.name == "" {
      assert HeaderLabel(tool, index)[0] == 'T';
    }
  }
}
