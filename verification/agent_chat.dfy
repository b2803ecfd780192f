/** The conversation loop of the agent-chat workflow (engine/workflows/agent_chat.py):
    conversion of the internal message dictionaries to chat-model messages, and the
    `llm_node` loop that alternates model calls and tool rounds, at most five of them.
    The chat model is the parameter `llm`; which exception class it raised is all the
    loop looks at. */
module AgentChat {
  import opened Wrappers
  import opened JsonValue
  import opened Exceptions
  import opened ToolCalls
  import opened Seqs
  import opened Text

  /** A chat-model message as the workflow builds it. */
  datatype LcMessage =
    | SystemMsg(content: Json)
    | HumanMsg(content: Json)
    | AiMsg(content: Json, additionalKwargs: Dict)
    | ToolMsg(text: string, toolCallId: Json)

  /** The content a system, human or assistant message accepts: a string or a list of
      strings and dictionaries. */
  predicate LcContent(content: Json) {
    || content.JStr?
    || (content.JArr? && forall i :: 0 <= i < |content.items| ==> content.items[i].JStr? || content.items[i].JObj?)
  }

  /** The error for a message the chat-model class refuses. */
  function CreateFailed(role: string): Exc {
    Exc(ValueError, "消息格式错误，无法创建 " + role + " 消息")
  }

  /** The role a message carries, as text; a role that is not a string matches none. */
  function RoleName(role: Json): string {
    if role.JStr? then role.s else "?"
  }

  /** The roles `_convert_messages` turns into a message; every other role is skipped. */
  predicate KnownRole(msg: Json) {
    msg.JObj? && RoleName(Lookup(msg.fields, "role")) in {"system", "user", "assistant", "tool"}
  }

  /** The message is a dictionary whose `role` is `role`. */
  predicate HasRole(msg: Json, role: string) {
    msg.JObj? && Lookup(msg.fields, "role") == JStr(role)
  }

  /** The `content` of a message, `""` when absent; a non-dictionary has none. */
  function MessageContent(msg: Json): Json {
    if msg.JObj? then Get(msg.fields, "content", JStr("")) else JNull
  }

  /** The entry `_detect_content_type` records for one item of a list content: a
      dictionary's `"type"` (default "unknown"), otherwise the item's type name. */
  function ItemType(item: Json): Json {
    if item.JObj? then Get(item.fields, "type", JStr("unknown")) else JStr(TypeName(item))
  }

  /** The `TypeError` of `', '.join` on a list whose entry `k` is not a string. */
  function JoinError(k: nat, entry: Json): Exc {
    Exc(TypeError, "sequence item " + NatToString(k) + ": expected str instance, " + TypeName(entry) + " found")
  }

  /** One entry of the join: its text, or the join's error. */
  function JoinEntry(k: nat, entry: Json): (r: Result<string, Exc>)
    ensures r.Ok? <==> entry.JStr?
    ensures r.Ok? ==> r.value == entry.s
    ensures r.Err? ==> r.error == JoinError(k, entry)
  {
    if entry.JStr? then Ok(entry.s) else Err(JoinError(k, entry))
  }

  /** The content can be described: every dictionary item of a list carries a string
      `"type"`, or has none. */
  predicate Describable(content: Json) {
    content.JArr? ==> forall i :: 0 <= i < |content.items| ==> ItemType(content.items[i]).JStr?
  }

  /** `_detect_content_type`: the description the debug log line shows, or the
      `TypeError` of its join, raised at the first entry that is not a string. */
  function DetectContentType(content: Json): (r: Result<string, Exc>)
    ensures r.Ok? <==> Describable(content)
    ensures r.Ok? ==> (r.value == "text" <==> content.JStr?)
    ensures r.Err? ==>
      && content.JArr?
      && exists k :: 0 <= k < |content.items| && !ItemType(content.items[k]).JStr?
           && r.error == JoinError(k, ItemType(content.items[k]))
           && forall j :: 0 <= j < k ==> ItemType(content.items[j]).JStr?
  {
    if content.JNull? then Ok("empty")
    else if content.JStr? then Ok("text")
    else if !content.JArr? then Ok(TypeName(content))
    else
      var items := content.items;
      var entries := seq(|items|, i requires 0 <= i < |items| => JoinEntry(i, ItemType(items[i])));
      assert forall i :: 0 <= i < |items| ==> (entries[i].Ok? <==> ItemType(items[i]).JStr?);
      match AllOk(entries)
      case Err(e) => Err(e)
      case Ok(names) => Ok("multimodal[" + Join(", ", names) + "]")
  }

  /** One iteration of `_convert_messages`: a message, nothing for an unknown role, or
      the error. The content is described for the debug log before the role is looked
      at, so a content that cannot be described fails whatever the role. */
  function ConvertOne(msg: Json, dumps: Json -> string): (r: Result<Option<LcMessage>, Exc>)
    ensures !msg.JObj? ==> r == Err(NoGet(msg))
    ensures msg.JObj? && !Describable(MessageContent(msg)) ==>
      r.Err? && r.error == DetectContentType(MessageContent(msg)).error && r.error.kind == TypeError
    ensures r.Ok? ==> (r.value.Some? <==> KnownRole(msg))
    ensures r.Ok? && r.value.Some? && r.value.value.ToolMsg? ==>
      && r.value.value.text == StringifyToolContent(MessageContent(msg), dumps)
      && r.value.value.toolCallId == Get(msg.fields, "tool_call_id", JStr(""))
    ensures msg.JObj? && Describable(MessageContent(msg)) && Lookup(msg.fields, "role") == JStr("tool") ==> r.Ok?
    ensures msg.JObj? && Describable(MessageContent(msg)) && !KnownRole(msg) ==> r == Ok(None)
    ensures r.Err? && msg.JObj? && Describable(MessageContent(msg)) ==>
      r.error.kind == ValueError && !LcContent(MessageContent(msg))
    ensures KnownRole(msg) && !HasRole(msg, "tool") && Describable(MessageContent(msg)) && !LcContent(MessageContent(msg)) ==>
      r == Err(CreateFailed(RoleName(Lookup(msg.fields, "role"))))
    ensures HasRole(msg, "system") && Describable(MessageContent(msg)) && LcContent(MessageContent(msg)) ==>
      r == Ok(Some(SystemMsg(MessageContent(msg))))
    ensures HasRole(msg, "user") && Describable(MessageContent(msg)) && LcContent(MessageContent(msg)) ==>
      r == Ok(Some(HumanMsg(MessageContent(msg))))
    ensures HasRole(msg, "assistant") && Describable(MessageContent(msg)) && LcContent(MessageContent(msg)) ==>
      && r.Ok? && r.value.Some? && r.value.value.AiMsg?
      && r.value.value.content == MessageContent(msg)
      && r.value.value.additionalKwargs.Keys <= {"tool_calls"}
      && ("tool_calls" in r.value.value.additionalKwargs <==> "tool_calls" in msg.fields)
      && ("tool_calls" in msg.fields ==> r.value.value.additionalKwargs["tool_calls"] == msg.fields["tool_calls"])
    ensures r.Ok? && r.value.Some? ==>
      && (r.value.value.SystemMsg? <==> HasRole(msg, "system"))
      && (r.value.value.HumanMsg? <==> HasRole(msg, "user"))
      && (r.value.value.AiMsg? <==> HasRole(msg, "assistant"))
      && (r.value.value.ToolMsg? <==> HasRole(msg, "tool"))
  {
    if !msg.JObj? then Err(NoGet(msg))
    else
      var fields := msg.fields;
      var role := Lookup(fields, "role");
      var content := Get(fields, "content", JStr(""));
      match DetectContentType(content)
      case Err(e) => Err(e)
      case Ok(_) =>
        if role == JStr("tool") then
          Ok(Some(ToolMsg(StringifyToolContent(content, dumps), Get(fields, "tool_call_id", JStr("")))))
        else if !KnownRole(msg) then Ok(None)
        else if !LcContent(content) then Err(CreateFailed(role.s))
        else if role == JStr("system") then Ok(Some(SystemMsg(content)))
        else if role == JStr("user") then Ok(Some(HumanMsg(content)))
        else
          Ok(Some(AiMsg(content, if "tool_calls" in fields then map["tool_calls" := fields["tool_calls"]] else map[])))
  }

  /** The messages with a known role, in order. */
  function Known(msgs: seq<Json>): (k: seq<Json>)
    ensures |k| <= |msgs|
    ensures forall i :: 0 <= i < |k| ==> KnownRole(k[i]) && k[i] in msgs
    ensures forall i :: 0 <= i < |msgs| && KnownRole(msgs[i]) ==> msgs[i] in k
    decreases |msgs|
  {
    if msgs == [] then []
    else
      assert forall i :: 1 <= i < |msgs| ==> msgs[i] == msgs[1..][i - 1];
      (if KnownRole(msgs[0]) then [msgs[0]] else []) + Known(msgs[1..])
  }

  /** Selecting the known messages is done message by message, so it keeps their order. */
  lemma {:induction false} KnownAppend(a: seq<Json>, b: seq<Json>)
    ensures Known(a + b) == Known(a) + Known(b)
    decreases |a|
  {
    if a == [] {
      assert a + b == b;
    } else {
      Uncons(a, b);
      ConsParts(a[0], a[1..] + b);
      KnownAppend(a[1..], b);
      Associative(if KnownRole(a[0]) then [a[0]] else [], Known(a[1..]), Known(b));
    }
  }

  /** Every message of `msgs` converts on its own. */
  ghost predicate AllConvert(msgs: seq<Json>, dumps: Json -> string) {
    forall i :: 0 <= i < |msgs| ==> ConvertOne(msgs[i], dumps).Ok?
  }

  /** `out` is what the messages `known` convert to, one for one. */
  ghost predicate ConvertsTo(known: seq<Json>, out: seq<LcMessage>, dumps: Json -> string) {
    |out| == |known| && forall i :: 0 <= i < |out| ==> ConvertOne(known[i], dumps) == Ok(Some(out[i]))
  }

  lemma AllConvertStep(msgs: seq<Json>, dumps: Json -> string)
    requires msgs != []
    ensures AllConvert(msgs, dumps) <==> ConvertOne(msgs[0], dumps).Ok? && AllConvert(msgs[1..], dumps)
  {
    assert forall i :: 1 <= i < |msgs| ==> msgs[i] == msgs[1..][i - 1];
  }

  lemma ConvertsStep(msgs: seq<Json>, rest: seq<LcMessage>, dumps: Json -> string)
    requires msgs != [] && ConvertOne(msgs[0], dumps).Ok?
    requires ConvertsTo(Known(msgs[1..]), rest, dumps)
    ensures ConvertsTo(Known(msgs), Contribution(ConvertOne(msgs[0], dumps).value) + rest, dumps)
  {
    assert Known(msgs) == (if KnownRole(msgs[0]) then [msgs[0]] else []) + Known(msgs[1..]);
    ConvertsCons(msgs[0], Known(msgs[1..]), rest, dumps);
  }

  /** One more converted message in front of a converted tail. */
  lemma ConvertsCons(x: Json, k: seq<Json>, rest: seq<LcMessage>, dumps: Json -> string)
    requires ConvertOne(x, dumps).Ok?
    requires ConvertsTo(k, rest, dumps)
    ensures ConvertsTo((if KnownRole(x) then [x] else []) + k, Contribution(ConvertOne(x, dumps).value) + rest, dumps)
  {
    var c := Contribution(ConvertOne(x, dumps).value);
    var known := (if KnownRole(x) then [x] else []) + k;
    assert |c| == |known| - |k|;
    forall i | 0 <= i < |known|
      ensures ConvertOne(known[i], dumps) == Ok(Some((c + rest)[i]))
    {
      if i >= |c| {
        assert known[i] == k[i - |c|] && (c + rest)[i] == rest[i - |c|];
      }
    }
  }

  /** `_convert_messages`: the converted messages, in order, or the first error. */
  function ConvertMessages(msgs: seq<Json>, dumps: Json -> string): (r: Result<seq<LcMessage>, Exc>)
    ensures r.Ok? <==> AllConvert(msgs, dumps)
    ensures r.Ok? ==> ConvertsTo(Known(msgs), r.value, dumps)
    decreases |msgs|
  {
    if msgs == [] then Ok([])
    else
      var head := ConvertOne(msgs[0], dumps);
      var rest := ConvertMessages(msgs[1..], dumps);
      AllConvertStep(msgs, dumps);
      if head.Err? then Err(head.error)
      else if rest.Err? then Err(rest.error)
      else
        ConvertsStep(msgs, rest.value, dumps);
        Ok(Contribution(head.value) + rest.value)
  }

  /** The converted prefix contributed by one message. */
  function Contribution(m: Option<LcMessage>): seq<LcMessage> {
    if m.Some? then [m.value] else []
  }

  /** Conversion of a conversation that starts with `x`. */
  lemma ConvertCons(x: Json, rest: seq<Json>, dumps: Json -> string)
    requires ConvertOne(x, dumps).Ok? && ConvertMessages(rest, dumps).Ok?
    ensures ConvertMessages([x] + rest, dumps)
         == Ok(Contribution(ConvertOne(x, dumps).value) + ConvertMessages(rest, dumps).value)
  {
    var xs := [x] + rest;
    assert xs[0] == x;
    assert xs[1..] == rest;
  }

  /** Conversion is message by message: converting a concatenation converts each part. */
  lemma {:induction false} ConvertAppend(a: seq<Json>, b: seq<Json>, dumps: Json -> string)
    requires ConvertMessages(a, dumps).Ok? && ConvertMessages(b, dumps).Ok?
    ensures ConvertMessages(a + b, dumps) == Ok(ConvertMessages(a, dumps).value + ConvertMessages(b, dumps).value)
    decreases |a|
  {
    if a == [] {
      assert a + b == b;
      assert ConvertMessages(a, dumps).value == [];
      assert [] + ConvertMessages(b, dumps).value == ConvertMessages(b, dumps).value;
    } else {
      var t := a[1..];
      Uncons(a, b);
      assert ConvertOne(a[0], dumps).Ok?;
      assert ConvertMessages(t, dumps).Ok? by {
        assert forall i :: 0 <= i < |t| ==> t[i] == a[i + 1];
      }
      ConvertAppend(t, b, dumps);
      ConvertCons(a[0], t + b, dumps);
      ConvertCons(a[0], t, dumps);
      var hs := Contribution(ConvertOne(a[0], dumps).value);
      var ct, cb := ConvertMessages(t, dumps).value, ConvertMessages(b, dumps).value;
      assert ConvertMessages(a + b, dumps) == Ok(hs + (ct + cb));
      assert ConvertMessages(a, dumps) == Ok(hs + ct);
      Associative(hs, ct, cb);
    }
  }

  /** A message with an unknown role and a describable content is skipped and changes
      nothing. */
  lemma UnknownRoleSkipped(msgs: seq<Json>, other: Json, dumps: Json -> string)
    requires ConvertMessages(msgs, dumps).Ok?
    requires other.JObj? && !KnownRole(other) && Describable(MessageContent(other))
    ensures ConvertMessages(msgs + [other], dumps) == ConvertMessages(msgs, dumps)
  {
    assert ConvertMessages([other], dumps) == Ok([]) by {
      assert [other][1..] == [];
    }
    ConvertAppend(msgs, [other], dumps);
    assert ConvertMessages(msgs, dumps).value + [] == ConvertMessages(msgs, dumps).value;
  }

  /** A message whose content cannot be described aborts the conversion, whatever its
      role and wherever it stands, and `llm_node` then raises its conversion error
      without calling the model. */
  lemma UndescribableAborts(before: seq<Json>, other: Json, after: seq<Json>,
                            llm: seq<LcMessage> -> Result<Response, LlmFailure>,
                            tools: map<string, Dict -> Result<Json, Exc>>, dumps: Json -> string,
                            loads: string -> Option<Json>, round: nat)
    requires other.JObj? && !Describable(MessageContent(other))
    requires round < MaxToolRounds
    ensures ConvertMessages(before + [other] + after, dumps).Err?
    ensures LlmNode(before + [other] + after, llm, tools, dumps, loads, round) == Err(Exc(ValueError, ConvertFailed))
  {
    var msgs := before + [other] + after;
    assert msgs[|before|] == other;
    assert !AllConvert(msgs, dumps);
  }

  /** Whether the chat model failed with a LangChain exception or something else. */
  datatype LlmFailure = LangChainFailure | OtherFailure

  const MaxToolRounds: nat := 5
  const ConvertFailed := "消息格式错误，无法转换为 LangChain 消息格式"
  const ModelFailed := "模型调用失败，请检查模型配置和网络连接"
  const ModelCrashed := "模型调用出现异常"
  const Exceeded := "Tool calling exceeded maximum iterations"

  /** The `RuntimeError` `llm_node` raises when a tool round fails. */
  function ToolsFailed(e: Exc): Exc {
    Exc(RuntimeError, "工具执行失败: " + e.text)
  }

  /** `_serialize_assistant_message`, given the calls `_extract_tool_calls` found. */
  function AssistantMessage(response: Response, calls: seq<Dict>): (m: Json)
    ensures m.JObj? && "role" in m.fields && m.fields["role"] == JStr("assistant")
    ensures "content" in m.fields && Truthy(m.fields["content"]) == Truthy(response.content)
    ensures "tool_calls" in m.fields <==> calls != []
    ensures calls == [] ==> FinalAnswer(m)
    ensures m.fields["content"] == (if Truthy(response.content) then response.content else JStr(""))
    ensures calls != [] ==> m.fields["tool_calls"] == JArr(AsJson(calls))
    ensures m.fields.Keys <= {"role", "content", "tool_calls"}
  {
    var content := if Truthy(response.content) then response.content else JStr("");
    var base := map["role" := JStr("assistant"), "content" := content];
    if calls == [] then JObj(base)
    else JObj(base["tool_calls" := JArr(AsJson(calls))])
  }

  /** The calls as the JSON list `_execute_tool_calls` receives. */
  function AsJson(calls: seq<Dict>): (js: seq<Json>)
    ensures |js| == |calls| && forall i :: 0 <= i < |js| ==> js[i] == JObj(calls[i])
  {
    seq(|calls|, i requires 0 <= i < |calls| => JObj(calls[i]))
  }

  /** The message the loop ends on: an assistant message that asks for no tool. */
  predicate FinalAnswer(m: Json) {
    m.JObj? && Lookup(m.fields, "role") == JStr("assistant") && "tool_calls" !in m.fields
  }

  /** The conversation's last message is a final answer. */
  predicate EndsWithFinalAnswer(ms: seq<Json>) {
    |ms| > 0 && FinalAnswer(ms[|ms| - 1])
  }

  /** How a successful `llm_node` ends: the whole conversation and the tool rounds run. */
  datatype Outcome = Outcome(messages: seq<Json>, toolRounds: nat)

  /** The first half of an iteration of `llm_node`: convert the conversation, ask the
      model, and extract the tool calls of its answer. */
  function Ask(history: seq<Json>, llm: seq<LcMessage> -> Result<Response, LlmFailure>,
               dumps: Json -> string): (r: Result<(Response, seq<Dict>), Exc>)
    ensures ConvertMessages(history, dumps).Err? ==> r == Err(Exc(ValueError, ConvertFailed))
    ensures r.Ok? ==>
      && ConvertMessages(history, dumps).Ok?
      && llm(ConvertMessages(history, dumps).value) == Ok(r.value.0)
      && ExtractToolCalls(r.value.0, dumps) == Ok(r.value.1)
    ensures ConvertMessages(history, dumps).Ok? && llm(ConvertMessages(history, dumps).value).Err? ==>
      r == Err(Exc(RuntimeError, if llm(ConvertMessages(history, dumps).value).error.LangChainFailure? then ModelFailed else ModelCrashed))
    ensures ConvertMessages(history, dumps).Ok? && llm(ConvertMessages(history, dumps).value).Ok? ==>
      var extracted := ExtractToolCalls(llm(ConvertMessages(history, dumps).value).value, dumps);
      && (extracted.Err? ==> r == Err(extracted.error))
      && (extracted.Ok? ==> r.Ok?)
  {
    match ConvertMessages(history, dumps)
    case Err(_) => Err(Exc(ValueError, ConvertFailed))
    case Ok(lc) =>
      match llm(lc)
      case Err(LangChainFailure) => Err(Exc(RuntimeError, ModelFailed))
      case Err(OtherFailure) => Err(Exc(RuntimeError, ModelCrashed))
      case Ok(response) =>
        match ExtractToolCalls(response, dumps)
        case Err(e) => Err(e)
        case Ok(calls) => Ok((response, calls))
  }

  /** `llm_node` from the iteration `round` of its loop on. */
  function LlmNode(history: seq<Json>, llm: seq<LcMessage> -> Result<Response, LlmFailure>,
                   tools: map<string, Dict -> Result<Json, Exc>>, dumps: Json -> string,
                   loads: string -> Option<Json>, round: nat): (r: Result<Outcome, Exc>)
    requires round <= MaxToolRounds
    ensures r.Ok? ==> round <= r.value.toolRounds < MaxToolRounds
    ensures r.Ok? ==> |r.value.messages| > |history| && r.value.messages[..|history|] == history
    ensures r.Ok? ==> EndsWithFinalAnswer(r.value.messages)
    ensures round == MaxToolRounds ==> r == Err(Exc(RuntimeError, Exceeded))
    ensures ConvertMessages(history, dumps).Err? && round < MaxToolRounds ==> r == Err(Exc(ValueError, ConvertFailed))
    ensures round < MaxToolRounds && Ask(history, llm, dumps).Err? ==> r == Err(Ask(history, llm, dumps).error)
    ensures round < MaxToolRounds && Ask(history, llm, dumps).Ok? && Ask(history, llm, dumps).value.1 != [] ==>
      var executed := ExecuteToolCalls(AsJson(Ask(history, llm, dumps).value.1), tools, loads);
      executed.Err? ==> r == Err(ToolsFailed(executed.error))
    decreases MaxToolRounds - round
  {
    if round == MaxToolRounds then Err(Exc(RuntimeError, Exceeded))
    else match Ask(history, llm, dumps)
      case Err(e) => Err(e)
      case Ok((response, calls)) =>
        var withAnswer := history + [AssistantMessage(response, calls)];
        PrefixOfAppend(history, [AssistantMessage(response, calls)]);
        if calls == [] then
          assert withAnswer[|withAnswer| - 1] == AssistantMessage(response, calls);
          Ok(Outcome(withAnswer, round))
        else match ExecuteToolCalls(AsJson(calls), tools, loads)
          case Err(e) => Err(ToolsFailed(e))
          case Ok(toolMessages) =>
            var next := LlmNode(withAnswer + toolMessages, llm, tools, dumps, loads, round + 1);
            if next.Ok? then
              PrefixOfAppend(withAnswer, toolMessages);
              PrefixOfPrefix(history, withAnswer, withAnswer + toolMessages);
              PrefixOfPrefix(history, withAnswer + toolMessages, next.value.messages);
              next
            else next
  }

  /** The loop returns as soon as a response asks for no tool, with the response appended. */
  lemma StopsWithoutToolCalls(history: seq<Json>, llm: seq<LcMessage> -> Result<Response, LlmFailure>,
                              tools: map<string, Dict -> Result<Json, Exc>>, dumps: Json -> string,
                              loads: string -> Option<Json>, round: nat)
    requires round < MaxToolRounds
    requires ConvertMessages(history, dumps).Ok?
    requires llm(ConvertMessages(history, dumps).value).Ok?
    requires ExtractToolCalls(llm(ConvertMessages(history, dumps).value).value, dumps) == Ok([])
    ensures LlmNode(history, llm, tools, dumps, loads, round)
         == Ok(Outcome(history + [AssistantMessage(llm(ConvertMessages(history, dumps).value).value, [])], round))
  {
  }

  /** One tool round that succeeds hands the extended conversation to the next iteration. */
  lemma ToolRoundStep(history: seq<Json>, llm: seq<LcMessage> -> Result<Response, LlmFailure>,
                      tools: map<string, Dict -> Result<Json, Exc>>, dumps: Json -> string,
                      loads: string -> Option<Json>, round: nat, response: Response,
                      calls: seq<Dict>, toolMessages: seq<Json>)
    requires round < MaxToolRounds
    requires ConvertMessages(history, dumps).Ok?
    requires llm(ConvertMessages(history, dumps).value) == Ok(response)
    requires ExtractToolCalls(response, dumps) == Ok(calls) && calls != []
    requires ExecuteToolCalls(AsJson(calls), tools, loads) == Ok(toolMessages)
    ensures LlmNode(history, llm, tools, dumps, loads, round)
         == LlmNode(history + [AssistantMessage(response, calls)] + toolMessages, llm, tools, dumps, loads, round + 1)
  {
  }

  /** A model that, whatever it is shown, answers with well-formed content and asks for
      tools that all run and return describable results. */
  ghost predicate AlwaysCallsTools(llm: seq<LcMessage> -> Result<Response, LlmFailure>,
                                   tools: map<string, Dict -> Result<Json, Exc>>, dumps: Json -> string,
                                   loads: string -> Option<Json>) {
    forall lc :: ToolRound(llm(lc), tools, dumps, loads)
  }

  ghost predicate ToolRound(answer: Result<Response, LlmFailure>, tools: map<string, Dict -> Result<Json, Exc>>,
                            dumps: Json -> string, loads: string -> Option<Json>) {
    && answer.Ok?
    && (Truthy(answer.value.content) ==> LcContent(answer.value.content))
    && Describable(answer.value.content)
    && ExtractToolCalls(answer.value, dumps).Ok?
    && ExtractToolCalls(answer.value, dumps).value != []
    && ExecuteToolCalls(AsJson(ExtractToolCalls(answer.value, dumps).value), tools, loads).Ok?
    && AllDescribable(ExecuteToolCalls(AsJson(ExtractToolCalls(answer.value, dumps).value), tools, loads).value)
  }

  /** Every message's content can be described. */
  predicate AllDescribable(msgs: seq<Json>) {
    forall i :: 0 <= i < |msgs| ==> Describable(MessageContent(msgs[i]))
  }

  /** The assistant message and the tool messages of a round convert, when the answer's
      content is accepted and every content can be described. */
  lemma RoundConverts(response: Response, calls: seq<Dict>, toolMessages: seq<Json>,
                      tools: map<string, Dict -> Result<Json, Exc>>, dumps: Json -> string,
                      loads: string -> Option<Json>)
    requires Truthy(response.content) ==> LcContent(response.content)
    requires Describable(response.content) && AllDescribable(toolMessages)
    requires ExecuteToolCalls(AsJson(calls), tools, loads) == Ok(toolMessages)
    ensures ConvertMessages([AssistantMessage(response, calls)] + toolMessages, dumps).Ok?
  {
    var all := [AssistantMessage(response, calls)] + toolMessages;
    forall i | 0 <= i < |all|
      ensures ConvertOne(all[i], dumps).Ok?
    {
      if i > 0 {
        assert all[i] == toolMessages[i - 1];
        assert ExecuteOne(AsJson(calls)[i - 1], tools, loads) == Ok(toolMessages[i - 1]);
      }
    }
  }

  /** A model that keeps asking for tools makes the loop give up: after the fifth tool
      round it raises `RuntimeError`. */
  lemma {:induction false} ExceedsAfterFiveRounds(history: seq<Json>, llm: seq<LcMessage> -> Result<Response, LlmFailure>,
                                                  tools: map<string, Dict -> Result<Json, Exc>>, dumps: Json -> string,
                                                  loads: string -> Option<Json>, round: nat)
    requires round <= MaxToolRounds
    requires ConvertMessages(history, dumps).Ok?
    requires AlwaysCallsTools(llm, tools, dumps, loads)
    ensures LlmNode(history, llm, tools, dumps, loads, round) == Err(Exc(RuntimeError, Exceeded))
    decreases MaxToolRounds - round
  {
    if round < MaxToolRounds {
      var lc := ConvertMessages(history, dumps).value;
      assert ToolRound(llm(lc), tools, dumps, loads);
      var response := llm(lc).value;
      var calls := ExtractToolCalls(response, dumps).value;
      var toolMessages := ExecuteToolCalls(AsJson(calls), tools, loads).value;
      var round1 := [AssistantMessage(response, calls)] + toolMessages;
      RoundConverts(response, calls, toolMessages, tools, dumps, loads);
      ConvertAppend(history, round1, dumps);
      Seqs.Associative(history, [AssistantMessage(response, calls)], toolMessages);
      ToolRoundStep(history, llm, tools, dumps, loads, round, response, calls, toolMessages);
      ExceedsAfterFiveRounds(history + round1, llm, tools, dumps, loads, round + 1);
    }
  }
}
