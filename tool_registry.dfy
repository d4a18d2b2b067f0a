/**
 * The registry of MCP tool definitions: an append-only list with a
 * lookup of the first definition carrying a given name.
 *
 * The input schema is a JsonElement in the source; here it is the JSON
 * text, which the registry only stores and hands back.
 */
module Registry {
  import opened Wrappers

  datatype ToolDefinition = ToolDefinition(name: string, description: string, inputSchema: string)

  /** The position of the first definition named `name`, if there is one. */
  function FirstNamed(tools: seq<ToolDefinition>, name: string): (r: Option<nat>)
    ensures r.Some? ==> r.value < |tools| && tools[r.value].name == name
    ensures r.Some? ==> forall j :: 0 <= j < r.value ==> tools[j].name != name
    ensures r.None? <==> forall j :: 0 <= j < |tools| ==> tools[j].name != name
    decreases |tools|
  {
    if |tools| == 0 then None
    else if tools[0].name == name then Some(0)
    else match FirstNamed(tools[1..], name)
      case None => None
      case Some(i) => Some(i + 1)
  }

  /**
   * Registering more tools never changes what a name already finds: the
   * first match stays the first, and a new tool is found by its name only
   * when no earlier tool has that name.
   */
  lemma {:induction false} FirstNamedAfterAppend(tools: seq<ToolDefinition>, tool: ToolDefinition, name: string)
    ensures FirstNamed(tools + [tool], name) ==
      if FirstNamed(tools, name).Some? then FirstNamed(tools, name)
      else if tool.name == name then Some(|tools|)
      else None
    decreases |tools|
  {
    if |tools| > 0 {
      assert (tools + [tool])[1..] == tools[1..] + [tool];
      FirstNamedAfterAppend(tools[1..], tool, name);
    }
  }

  class ToolRegistry {
    var tools: seq<ToolDefinition>

    constructor ()
      ensures tools == []
    {
      tools := [];
    }

    /** RegisterTool: one definition more, at the end; the earlier ones stay as they were. */
    method RegisterTool(name: string, description: string, inputSchema: string)
      modifies this
      ensures tools == old(tools) + [ToolDefinition(name, description, inputSchema)]
      ensures |tools| == |old(tools)| + 1
      ensures forall i :: 0 <= i < |old(tools)| ==> tools[i] == old(tools)[i]
    {
      tools := tools + [ToolDefinition(name, description, inputSchema)];
    }

    /** GetAllTools: every registered definition, in registration order. */
    function GetAllTools(): (r: seq<ToolDefinition>)
      reads this
      ensures |r| == |tools|
      ensures forall i :: 0 <= i < |r| ==> r[i] == tools[i]
    {
      tools
    }

    /** GetTool: the first definition named `name`, or none when no definition has that name. */
    function GetTool(name: string): (r: Option<ToolDefinition>)
      reads this
      ensures r.Some? ==> r.value in tools && r.value.name == name
      ensures r.Some? ==> exists i :: 0 <= i < |tools| && tools[i] == r.value &&
                                    forall j :: 0 <= j < i ==> tools[j].name != name
      ensures r.None? <==> forall t :: t in tools ==> t.name != name
    {
      match FirstNamed(tools, name)
      case None => None
      case Some(i) => Some(tools[i])
    }
  }
}
