/** The event sequence of `POST /v1/run_workflow` (the `event_stream` generator in
    engine/main.py). Every collaborator the generator calls (model client factory, tool
    loader, graph builder, graph execution) is reduced to its outcome: it returns, or it
    raises an exception. The frames then depend only on which step raised, and how. */
module RunWorkflow {
  import opened Wrappers
  import opened JsonValue
  import opened Exceptions
  import opened SseEmitter
  import Registry
  import Text

  /** The outcome of one collaborator call. */
  datatype Step = Completes | Raises(exc: Exc)

  datatype Run = Run(
    traceId: string,
    workflowId: string,
    /** `build_llm(payload.runtime_config.model)` */
    buildLlm: Step,
    /** `build_tools_from_runtime(...)` */
    loadTools: Step,
    /** the graph builder's own body, once its arguments have bound */
    buildGraph: Step,
    /** `graph.invoke(init_state)`: the final state, or the exception it raised */
    invoke: Result<Dict, Exc>)

  const InitMsg := "正在初始化工作流..."
  const ConnectMsg := "正在连接模型服务..."
  const ToolsMsg := "正在加载工具..."
  const BuildMsg := "正在构建工作流..."
  const ExecuteMsg := "正在执行工作流..."
  const GenericFailure := "工作流执行失败"

  /** The message an `error` frame may show: the exception text only for `ValueError`
      and `TypeError`, a fixed message for everything else. */
  function SafeMessage(e: Exc): (m: string)
    ensures IsValueOrTypeError(e.kind) ==> m == e.text
    ensures !IsValueOrTypeError(e.kind) ==> m == GenericFailure
  {
    if IsValueOrTypeError(e.kind) then e.text else GenericFailure
  }

  /** The `error` frame the outer `except` yields. */
  function Failed(e: Exc, traceId: string): Event {
    Error(500, SafeMessage(e), traceId)
  }

  /** Steps 8 of the generator: the answer taken from the final state, including the
      `len(answer)` of the log line, and the exceptions Python raises on the way. */
  function Answer(state: Dict): (r: Result<Json, Exc>)
    ensures var messages := Get(state, "messages", JArr([]));
      && (!Truthy(messages) ==> r == Ok(JStr("")))
      && (r.Ok? && Truthy(messages) ==>
            messages.JArr? && messages.items[|messages.items| - 1].JObj?
            && r.value == Get(messages.items[|messages.items| - 1].fields, "content", JStr("")))
      && (messages.JArr? && Truthy(messages) && messages.items[|messages.items| - 1].JObj? ==>
            var content := Get(messages.items[|messages.items| - 1].fields, "content", JStr(""));
            (r.Ok? <==> (content.JStr? || content.JArr? || content.JObj?)))
  {
    var messages := Get(state, "messages", JArr([]));
    if !Truthy(messages) then Ok(JStr(""))
    else match messages
      case JArr(items) =>
        var last := items[|items| - 1];
        if last.JObj? then
          var answer := Get(last.fields, "content", JStr(""));
          if answer.JStr? || answer.JArr? || answer.JObj? then Ok(answer)
          else Err(Exc(TypeError, "object of type '" + TypeName(answer) + "' has no len()"))
        else Err(Exc(AttributeError, "'" + TypeName(last) + "' object has no attribute 'get'"))
      case JStr(_) => Err(Exc(AttributeError, "'str' object has no attribute 'get'"))
      case JObj(_) => Err(Exc(KeyError, "-1"))
      case JInt(_) => Err(Exc(TypeError, "'int' object is not subscriptable"))
      case JBool(_) => Err(Exc(TypeError, "'bool' object is not subscriptable"))
  }

  predicate IsTerminal(e: Event) {
    e.Done? || e.Error?
  }

  /** The progress messages, in the order the generator yields them. */
  const Progress: seq<string> := [InitMsg, ConnectMsg, ToolsMsg, BuildMsg, ExecuteMsg]

  /** The first `n` progress frames. */
  function Thinking(n: nat, t: string): (fs: seq<Event>)
    requires n <= |Progress|
    ensures |fs| == n && forall i :: 0 <= i < n ==> fs[i] == ToolThinking(Progress[i], t)
  {
    seq(n, i requires 0 <= i < n => ToolThinking(Progress[i], t))
  }

  /** Where the generator stops: how many progress frames it yields before the step that
      ends it, and the frames it closes with. */
  datatype Ending = Ending(progress: nat, closing: seq<Event>)

  /** The frames that close a stream: one terminal frame, or the answer then `done`. */
  predicate Closing(cs: seq<Event>, t: string) {
    && (|cs| == 1 || |cs| == 2)
    && IsTerminal(cs[|cs| - 1])
    && (|cs| == 2 ==> cs[0].MessageChunk?)
    && (cs[|cs| - 1].Done? <==> |cs| == 2)
    && forall i :: 0 <= i < |cs| ==> cs[i].traceId == t
  }

  /** Which step ends the generator, and how. */
  function Finish(run: Run, builderArgs: set<string>): (e: Ending)
    ensures 2 <= e.progress <= |Progress|
    ensures Closing(e.closing, run.traceId)
    ensures |e.closing| == 2 ==> e.progress == |Progress|
    ensures |e.closing| == 2 <==>
      && run.buildLlm.Completes? && run.loadTools.Completes? && Registry.GetWorkflowBuilder(run.workflowId).Ok?
      && Registry.CallBuilder(Registry.GetWorkflowBuilder(run.workflowId).value, builderArgs).None?
      && run.buildGraph.Completes? && run.invoke.Ok? && Answer(run.invoke.value).Ok?
  {
    var t := run.traceId;
    if run.buildLlm.Raises? then Ending(2, [Failed(run.buildLlm.exc, t)])
    else if run.loadTools.Raises? then Ending(3, [Failed(run.loadTools.exc, t)])
    else match Registry.GetWorkflowBuilder(run.workflowId)
      case Err(e) => Ending(3, [Error(400, e.text, t)])
      case Ok(builder) =>
        match Registry.CallBuilder(builder, builderArgs)
        case Some(e) => Ending(4, [Failed(e, t)])
        case None =>
          if run.buildGraph.Raises? then Ending(4, [Failed(run.buildGraph.exc, t)])
          else match run.invoke
            case Err(e) => Ending(5, [Failed(e, t)])
            case Ok(state) =>
              match Answer(state)
              case Err(e) => Ending(5, [Failed(e, t)])
              case Ok(answer) => Ending(5, [MessageChunk(answer, t), Done(JInt(0), "stop", t)])
  }

  /** The generator, parameterised by the keyword arguments it passes to the builder:
      progress frames, then the frames the ending step produces. */
  function Stream(run: Run, builderArgs: set<string>): (frames: seq<Event>)
    ensures 3 <= |frames| <= 7
    ensures frames[0] == ToolThinking(InitMsg, run.traceId)
    ensures IsTerminal(frames[|frames| - 1])
    ensures frames[|frames| - 1] == Finish(run, builderArgs).closing[|Finish(run, builderArgs).closing| - 1]
    ensures forall i :: 0 <= i < |frames| - 1 ==> !IsTerminal(frames[i])
    ensures forall i :: 0 <= i < |frames| ==>
      (frames[i].ToolThinking? || frames[i].MessageChunk? || IsTerminal(frames[i])) && frames[i].traceId == run.traceId
  {
    var e := Finish(run, builderArgs);
    FramesOf(e, run.traceId);
    Thinking(e.progress, run.traceId) + e.closing
  }

  /** Progress frames followed by a closing: one terminal frame, at the end. */
  lemma FramesOf(e: Ending, t: string)
    requires 2 <= e.progress <= |Progress| && Closing(e.closing, t)
    ensures var frames := Thinking(e.progress, t) + e.closing;
      && 3 <= |frames| <= 7
      && frames[0] == ToolThinking(InitMsg, t)
      && frames[|frames| - 1] == e.closing[|e.closing| - 1]
      && (forall i :: 0 <= i < |frames| - 1 ==> !IsTerminal(frames[i]))
      && forall i :: 0 <= i < |frames| ==>
        (frames[i].ToolThinking? || frames[i].MessageChunk? || IsTerminal(frames[i])) && frames[i].traceId == t
  {
    var frames := Thinking(e.progress, t) + e.closing;
    assert forall i :: e.progress <= i < |frames| ==> frames[i] == e.closing[i - e.progress];
  }

  /** The keyword arguments engine/main.py passes to the builder: `builder(llm=llm)`. */
  const WrittenBuilderArgs: set<string> := {"llm"}

  /** The arguments the builder's signature asks for. */
  const IntendedBuilderArgs: set<string> := {"llm", "tools", "tool_configs"}

  /** Everything before the graph builder is reached went well. */
  predicate ReachesBuilder(run: Run) {
    run.buildLlm.Completes? && run.loadTools.Completes? && run.workflowId == "agent_chat"
  }

  /** The generator as written. Its call `builder(llm=llm)` leaves out `tools` and
      `tool_configs`, so a run that reaches the builder always fails with that
      `TypeError`, and no run ever ends in `done`. */
  function EventStreamAsWritten(run: Run): (frames: seq<Event>)
    ensures 3 <= |frames| && frames[0] == ToolThinking(InitMsg, run.traceId)
    ensures !frames[|frames| - 1].Done?
    ensures ReachesBuilder(run) ==>
      frames[|frames| - 1]
        == Error(500, Registry.MissingArgumentsMessage("build_agent_chat_graph", ["tools", "tool_configs"]), run.traceId)
  {
    Registry.Resolves(run.workflowId);
    Registry.AgentChatNeedsTools();
    var e := Finish(run, WrittenBuilderArgs);
    if ReachesBuilder(run) then
      assert e.closing == [Failed(Registry.CallBuilder(Registry.AgentChatBuilder, WrittenBuilderArgs).value, run.traceId)];
      Stream(run, WrittenBuilderArgs)
    else
      assert |e.closing| == 1;
      Stream(run, WrittenBuilderArgs)
  }

  /** The generator with the builder called with every argument it requires: it ends in
      `done` exactly when every step returns and the answer is read. */
  function EventStream(run: Run): (frames: seq<Event>)
    ensures 3 <= |frames| && frames[0] == ToolThinking(InitMsg, run.traceId)
    ensures frames[|frames| - 1].Done? <==>
      ReachesBuilder(run) && run.buildGraph.Completes? && run.invoke.Ok? && Answer(run.invoke.value).Ok?
  {
    var e := Finish(run, IntendedBuilderArgs);
    Registry.Resolves(run.workflowId);
    Registry.AgentChatBindsAll();
    assert IntendedBuilderArgs == {"llm", "tools", "tool_configs"};
    Stream(run, IntendedBuilderArgs)
  }

  /** The five progress frames, spelled out. */
  lemma AllProgress(t: string)
    ensures Thinking(|Progress|, t) == [ToolThinking(InitMsg, t), ToolThinking(ConnectMsg, t),
      ToolThinking(ToolsMsg, t), ToolThinking(BuildMsg, t), ToolThinking(ExecuteMsg, t)]
  {
  }

  /** A successful run: five progress frames, the answer, then `done` with zero usage and
      finish reason `stop`. */
  lemma SuccessFrames(run: Run)
    ensures EventStream(run)[|EventStream(run)| - 1].Done? ==>
      var t := run.traceId;
      EventStream(run) == [ToolThinking(InitMsg, t), ToolThinking(ConnectMsg, t), ToolThinking(ToolsMsg, t),
        ToolThinking(BuildMsg, t), ToolThinking(ExecuteMsg, t),
        MessageChunk(Answer(run.invoke.value).value, t), Done(JInt(0), "stop", t)]
  {
    var e := Finish(run, IntendedBuilderArgs);
    var t := run.traceId;
    var s := EventStream(run);
    assert s[|s| - 1].Done? <==> |e.closing| == 2;
    Registry.Resolves(run.workflowId);
    Registry.AgentChatBindsAll();
    assert IntendedBuilderArgs == {"llm", "tools", "tool_configs"};
    if |e.closing| == 2 {
      assert e == Ending(5, [MessageChunk(Answer(run.invoke.value).value, t), Done(JInt(0), "stop", t)]);
      assert s == Thinking(5, t) + e.closing;
      AllProgress(t);
    }
  }

  /** An unknown workflow id ends the stream after the tool-loading frame with a 400
      error carrying the registry's message, and no `done`. */
  lemma UnknownWorkflow(run: Run)
    requires run.buildLlm.Completes? && run.loadTools.Completes? && run.workflowId != "agent_chat"
    ensures EventStream(run) == [ToolThinking(InitMsg, run.traceId), ToolThinking(ConnectMsg, run.traceId),
      ToolThinking(ToolsMsg, run.traceId), Error(400, "Unknown workflow_id: " + run.workflowId, run.traceId)]
  {
    Registry.Resolves(run.workflowId);
    assert Finish(run, IntendedBuilderArgs) ==
      Ending(3, [Error(400, "Unknown workflow_id: " + run.workflowId, run.traceId)]);
  }

  /** Every `error` frame is either the 400 of an unknown workflow id or a 500 whose
      message is the sanitised message of an exception one of the steps raised. */
  lemma ErrorsAreSanitised(run: Run)
    requires EventStream(run)[|EventStream(run)| - 1].Error?
    ensures var last := EventStream(run)[|EventStream(run)| - 1];
      || (last.code == 400 && last.msg == "Unknown workflow_id: " + run.workflowId)
      || (last.code == 500 && exists e :: FailureOf(run, e) && last.msg == SafeMessage(e))
  {
    Registry.Resolves(run.workflowId);
    Registry.AgentChatBindsAll();
    var closing := Finish(run, IntendedBuilderArgs).closing;
    var last := closing[|closing| - 1];
    if run.buildLlm.Raises? {
      assert last == Failed(run.buildLlm.exc, run.traceId);
      assert FailureOf(run, run.buildLlm.exc);
    } else if run.loadTools.Raises? {
      assert last == Failed(run.loadTools.exc, run.traceId);
      assert FailureOf(run, run.loadTools.exc);
    } else if run.workflowId != "agent_chat" {
    } else if run.buildGraph.Raises? {
      assert last == Failed(run.buildGraph.exc, run.traceId);
      assert FailureOf(run, run.buildGraph.exc);
    } else if run.invoke.Err? {
      assert last == Failed(run.invoke.error, run.traceId);
      assert FailureOf(run, run.invoke.error);
    } else {
      assert Answer(run.invoke.value).Err?;
      assert last == Failed(Answer(run.invoke.value).error, run.traceId);
      assert FailureOf(run, Answer(run.invoke.value).error);
    }
  }

  /** `e` is an exception one of the run's steps raised. */
  ghost predicate FailureOf(run: Run, e: Exc) {
    || run.buildLlm == Raises(e) || run.loadTools == Raises(e) || run.buildGraph == Raises(e)
    || run.invoke == Err(e) || (run.invoke.Ok? && Answer(run.invoke.value) == Err(e))
  }
}
