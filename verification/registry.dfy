/** The workflow registry (engine/workflows/registry.py): workflow id -> graph builder. */
module Registry {
  import opened Wrappers
  import opened Exceptions
  import Text

  /** A graph-building function, described by its name and the parameters a call must
      supply because they have no default value. */
  datatype Builder = Builder(name: string, required: seq<string>)

  /** `build_agent_chat_graph(llm, tools, tool_configs, trace_id=None)`. */
  const AgentChatBuilder := Builder("build_agent_chat_graph", ["llm", "tools", "tool_configs"])

  /** `WORKFLOWS`, in insertion order. */
  const Workflows: seq<(string, Builder)> := [("agent_chat", AgentChatBuilder)]

  function Ids(reg: seq<(string, Builder)>): (ids: seq<string>)
    ensures |ids| == |reg|
    ensures forall i :: 0 <= i < |reg| ==> ids[i] == reg[i].0
  {
    seq(|reg|, i requires 0 <= i < |reg| => reg[i].0)
  }

  function Find(reg: seq<(string, Builder)>, id: string): (r: Option<Builder>)
    ensures r.Some? <==> id in Ids(reg)
    ensures r.Some? ==> (id, r.value) in reg
    decreases |reg|
  {
    if reg == [] then None
    else if reg[0].0 == id then Some(reg[0].1)
    else
      var r := Find(reg[1..], id);
      assert Ids(reg) == [reg[0].0] + Ids(reg[1..]);
      r
  }

  /** `get_workflow_builder(workflow_id)`. */
  function GetWorkflowBuilder(workflowId: string): (r: Result<Builder, Exc>)
    ensures r.Ok? <==> workflowId in ListWorkflows()
    ensures r.Ok? ==> (workflowId, r.value) in Workflows
    ensures r.Err? ==> r.error == Exc(ValueError, "Unknown workflow_id: " + workflowId)
  {
    match Find(Workflows, workflowId)
    case Some(b) => Ok(b)
    case None => Err(Exc(ValueError, "Unknown workflow_id: " + workflowId))
  }

  /** `list_workflows()`: the registry keys, in order. */
  function ListWorkflows(): (ids: seq<string>)
    ensures ids == ["agent_chat"]
  {
    Ids(Workflows)
  }

  /** The only registered workflow resolves to the agent-chat graph builder. */
  lemma AgentChatRegistered()
    ensures GetWorkflowBuilder("agent_chat") == Ok(AgentChatBuilder)
    ensures forall id :: id != "agent_chat" ==> GetWorkflowBuilder(id).Err?
  {
    assert Find(Workflows, "agent_chat") == Some(AgentChatBuilder);
  }

  /** What `get_workflow_builder` makes of one id. */
  lemma Resolves(id: string)
    ensures GetWorkflowBuilder(id).Ok? <==> id == "agent_chat"
    ensures GetWorkflowBuilder(id).Ok? ==> GetWorkflowBuilder(id).value == AgentChatBuilder
  {
    AgentChatRegistered();
  }

  /** The required parameters a call leaves out, in declaration order. */
  function Missing(required: seq<string>, passed: set<string>): (m: seq<string>)
    ensures forall x :: x in m <==> x in required && x !in passed
    ensures |m| <= |required|
  {
    if required == [] then []
    else (if required[0] in passed then [] else [required[0]]) + Missing(required[1..], passed)
  }

  /** One name in single quotes. */
  function Quote(name: string): string {
    "'" + name + "'"
  }

  /** How Python lists missing names: `'a'`, `'a' and 'b'`, `'a', 'b', and 'c'`. */
  function QuotedNames(names: seq<string>): string {
    var quoted := seq(|names|, i requires 0 <= i < |names| => Quote(names[i]));
    if |names| == 0 then ""
    else if |names| == 1 then quoted[0]
    else if |names| == 2 then quoted[0] + " and " + quoted[1]
    else Text.Join(", ", quoted[..|names| - 1]) + ", and " + quoted[|names| - 1]
  }

  /** Three or more names are comma-separated, the last one after ", and". */
  lemma QuotedThree()
    ensures QuotedNames(["a", "b", "c"]) == "'a', 'b', and 'c'"
    ensures QuotedNames(["a", "b"]) == "'a' and 'b'"
  {
    var names := ["a", "b", "c"];
    var quoted := seq(|names|, i requires 0 <= i < |names| => Quote(names[i]));
    assert quoted[0] == "'a'" && quoted[1] == "'b'" && quoted[2] == "'c'";
    assert quoted[..2] == ["'a'"] + ["'b'"];
    Text.JoinCons(", ", "'a'", ["'b'"]);
    var two := ["a", "b"];
    var quoted2 := seq(|two|, i requires 0 <= i < |two| => Quote(two[i]));
    assert quoted2[0] == "'a'" && quoted2[1] == "'b'";
  }

  /** The text of the `TypeError` Python raises for missing positional arguments, as in
      `f() missing 2 required positional arguments: 'a' and 'b'`. */
  function MissingArgumentsMessage(functionName: string, missing: seq<string>): string {
    var noun := if |missing| == 1 then " required positional argument: " else " required positional arguments: ";
    functionName + "() missing " + Text.NatToString(|missing|) + noun + QuotedNames(missing)
  }

  /** Calling builder `b` with keyword arguments `passed`: the `TypeError` Python raises
      when a required parameter is left out, or nothing when the arguments bind. */
  function CallBuilder(b: Builder, passed: set<string>): (r: Option<Exc>)
    ensures r.None? <==> forall x :: x in b.required ==> x in passed
    ensures r.Some? ==> r.value == Exc(TypeError, MissingArgumentsMessage(b.name, Missing(b.required, passed)))
  {
    var m := Missing(b.required, passed);
    if m == [] then None
    else
      assert m[0] in b.required && m[0] !in passed;
      Some(Exc(TypeError, MissingArgumentsMessage(b.name, m)))
  }

  /** Called with `llm` alone, the agent-chat builder raises the `TypeError` naming the
      two parameters left out: `tools` and `tool_configs`. */
  lemma AgentChatNeedsTools()
    ensures CallBuilder(AgentChatBuilder, {"llm"})
         == Some(Exc(TypeError, MissingArgumentsMessage("build_agent_chat_graph", ["tools", "tool_configs"])))
  {
    assert Missing(["tool_configs"], {"llm"}) == ["tool_configs"];
    assert Missing(["tools", "tool_configs"], {"llm"}) == ["tools", "tool_configs"];
    assert Missing(AgentChatBuilder.required, {"llm"}) == ["tools", "tool_configs"];
  }

  /** Called with all three parameters, the agent-chat builder's arguments bind. */
  lemma AgentChatBindsAll()
    ensures CallBuilder(AgentChatBuilder, {"llm", "tools", "tool_configs"}) == None
  {
  }
}
