/** Tool-call plumbing of the agent-chat workflow (engine/workflows/agent_chat.py):
    argument parsing and stringification, tool-call normalisation and extraction, and
    tool execution. `json.dumps` and `json.loads` are the parameters `dumps` and
    `loads`; a loaded tool is a function from its argument dictionary to its result or
    the exception it raised. */
module ToolCalls {
  import opened Wrappers
  import opened JsonValue
  import opened Exceptions

  const NotJson := "工具参数不是合法 JSON"
  const NotObject := "工具参数必须是 JSON 对象"
  const NotStringOrObject := "工具参数必须是 JSON 字符串或对象"

  /** `_parse_arguments`: tool arguments as a dictionary. */
  function ParseArguments(arguments: Json, loads: string -> Option<Json>): (r: Result<Dict, Exc>)
    ensures !Truthy(arguments) ==> r == Ok(map[])
    ensures arguments.JObj? ==> r == Ok(arguments.fields)
    ensures r.Ok? <==>
      || !Truthy(arguments) || arguments.JObj?
      || (arguments.JStr? && loads(arguments.s).Some? && loads(arguments.s).value.JObj?)
    ensures r.Ok? && arguments.JStr? && Truthy(arguments) ==> loads(arguments.s) == Some(JObj(r.value))
    ensures r.Err? ==> r.error.kind == ValueError
    ensures r.Err? && arguments.JStr? ==> r.error.text == (if loads(arguments.s).None? then NotJson else NotObject)
    ensures r.Err? && !arguments.JStr? ==> r.error.text == NotStringOrObject
  {
    if !Truthy(arguments) then Ok(map[])
    else match arguments
      case JObj(m) => Ok(m)
      case JStr(s) =>
        (match loads(s)
         case None => Err(Exc(ValueError, NotJson))
         case Some(JObj(m)) => Ok(m)
         case Some(_) => Err(Exc(ValueError, NotObject)))
      case _ => Err(Exc(ValueError, NotStringOrObject))
  }

  /** `_stringify_arguments`: falsy values become the empty text, strings stay as they
      are, everything else is serialised (JSON values always serialise). */
  function StringifyArguments(arguments: Json, dumps: Json -> string): (r: string)
    ensures !Truthy(arguments) ==> r == ""
    ensures arguments.JStr? ==> r == arguments.s
    ensures Truthy(arguments) && !arguments.JStr? ==> r == dumps(arguments)
  {
    if !Truthy(arguments) then ""
    else if arguments.JStr? then arguments.s
    else dumps(arguments)
  }

  /** `_stringify_tool_content`: only `None` becomes the empty text. */
  function StringifyToolContent(content: Json, dumps: Json -> string): (r: string)
    ensures content.JNull? ==> r == ""
    ensures content.JStr? ==> r == content.s
    ensures !content.JNull? && !content.JStr? ==> r == dumps(content)
  {
    if content.JNull? then ""
    else if content.JStr? then content.s
    else dumps(content)
  }

  /** The two stringifications differ exactly on the falsy values that are neither
      `None` nor a string (`False`, `0`, `[]`, `{}`): arguments drop them, tool content
      serialises them. */
  lemma StringifyDisagreement(j: Json, dumps: Json -> string)
    requires NeverEmpty(dumps)
    ensures StringifyArguments(j, dumps) != StringifyToolContent(j, dumps)
        <==> !Truthy(j) && !j.JNull? && !j.JStr?
  {
    assert dumps(j) != "";
  }

  /** Arguments written by `_stringify_arguments` are read back by `_parse_arguments`:
      a dictionary survives the trip, the empty one included. */
  lemma ArgumentsRoundTrip(args: Dict, dumps: Json -> string, loads: string -> Option<Json>)
    requires RoundTrips(dumps, loads) && NeverEmpty(dumps)
    ensures ParseArguments(JStr(StringifyArguments(JObj(args), dumps)), loads) == Ok(args)
  {
    if args != map[] {
      assert loads(dumps(JObj(args))) == Some(JObj(args));
      assert dumps(JObj(args)) != "";
    }
  }

  /** A tool call as the model returns it: a dictionary, an object with `model_dump()`
      or `dict()` (represented by the dictionary it dumps to), or anything else. */
  datatype RawCall = DictCall(fields: Dict) | ModelCall(dump: Dict) | OpaqueCall

  /** An element of `additional_kwargs["tool_calls"]`: only a dictionary is usable. */
  function FromJson(j: Json): (c: RawCall)
    ensures c.DictCall? <==> j.JObj?
    ensures j.JObj? ==> c.fields == j.fields
  {
    if j.JObj? then DictCall(j.fields) else OpaqueCall
  }

  /** The normalised shape `{"id", "type", "function": {"name", "arguments"}}`. */
  function CallShape(id: Json, kind: Json, name: Json, arguments: string): (d: Dict)
    ensures d.Keys == {"id", "type", "function"}
  {
    map["id" := id, "type" := kind,
        "function" := JObj(map["name" := name, "arguments" := JStr(arguments)])]
  }

  /** `_normalize_tool_call` on a dictionary. */
  function NormalizeDict(d: Dict, dumps: Json -> string): (r: Result<Dict, Exc>)
    ensures r.Ok? ==> r.value.Keys == {"id", "type", "function"}
    ensures r.Ok? ==> r.value["id"] == Get(d, "id", JStr("")) && r.value["type"] == Get(d, "type", JStr("function"))
    ensures r.Err? <==> "function" in d && Truthy(d["function"]) && !d["function"].JObj?
    ensures "function" in d && r.Ok? ==>
      var meta := if Truthy(d["function"]) then d["function"].fields else map[];
      r.value["function"] == JObj(map["name" := Get(meta, "name", JStr("")),
                                      "arguments" := JStr(StringifyArguments(Lookup(meta, "arguments"), dumps))])
    ensures "function" !in d ==>
      var a := if Lookup(d, "arguments").JNull? then Lookup(d, "args") else Lookup(d, "arguments");
      r == Ok(CallShape(Get(d, "id", JStr("")), Get(d, "type", JStr("function")), Get(d, "name", JStr("")),
                        StringifyArguments(a, dumps)))
  {
    var id := Get(d, "id", JStr(""));
    var kind := Get(d, "type", JStr("function"));
    if "function" in d then
      var f := d["function"];
      var meta := if Truthy(f) then f else JObj(map[]);
      if !meta.JObj? then Err(NoGet(meta))
      else Ok(CallShape(id, kind, Get(meta.fields, "name", JStr("")),
                        StringifyArguments(Lookup(meta.fields, "arguments"), dumps)))
    else
      var arguments := Lookup(d, "arguments");
      var a := if arguments.JNull? then Lookup(d, "args") else arguments;
      Ok(CallShape(id, kind, Get(d, "name", JStr("")), StringifyArguments(a, dumps)))
  }

  /** `_normalize_tool_call`: an unusable value becomes the empty dictionary. */
  function NormalizeToolCall(call: RawCall, dumps: Json -> string): (r: Result<Dict, Exc>)
    ensures call.OpaqueCall? ==> r == Ok(map[])
    ensures r.Ok? && !call.OpaqueCall? ==> r.value.Keys == {"id", "type", "function"}
  {
    match call
    case DictCall(d) => NormalizeDict(d, dumps)
    case ModelCall(d) => NormalizeDict(d, dumps)
    case OpaqueCall => Ok(map[])
  }

  /** The raw calls that survive normalisation, in order. */
  function Usable(raw: seq<RawCall>): (u: seq<RawCall>)
    ensures |u| <= |raw|
    ensures forall i :: 0 <= i < |u| ==> !u[i].OpaqueCall?
    decreases |raw|
  {
    if raw == [] then []
    else (if raw[0].OpaqueCall? then [] else [raw[0]]) + Usable(raw[1..])
  }

  /** The non-empty dictionaries of `ds`, in order (`if normalized:`). */
  function NonEmpty(ds: seq<Dict>): (r: seq<Dict>)
    ensures |r| <= |ds|
    decreases |ds|
  {
    if ds == [] then [] else (if ds[0] == map[] then [] else [ds[0]]) + NonEmpty(ds[1..])
  }

  /** `ds` are the normalised forms of `us`, none of them empty. */
  ghost predicate NormalizesTo(us: seq<RawCall>, ds: seq<Dict>, dumps: Json -> string) {
    |ds| == |us| &&
    forall i :: 0 <= i < |us| ==> NormalizeToolCall(us[i], dumps) == Ok(ds[i]) && ds[i] != map[]
  }

  lemma NormalizesToCons(u: RawCall, us: seq<RawCall>, d: Dict, ds: seq<Dict>, dumps: Json -> string)
    requires NormalizeToolCall(u, dumps) == Ok(d) && d != map[]
    requires NormalizesTo(us, ds, dumps)
    ensures NormalizesTo([u] + us, [d] + ds, dumps)
  {
    var u2, d2 := [u] + us, [d] + ds;
    forall i | 0 <= i < |u2|
      ensures NormalizeToolCall(u2[i], dumps) == Ok(d2[i]) && d2[i] != map[]
    {
      if i > 0 {
        assert u2[i] == us[i - 1] && d2[i] == ds[i - 1];
      }
    }
  }

  /** Dropping the empty results of a call-by-call normalisation leaves exactly the
      normalised usable calls. */
  lemma {:induction false} NonEmptyIsUsable(raw: seq<RawCall>, ds: seq<Dict>, dumps: Json -> string)
    requires |ds| == |raw|
    requires forall i :: 0 <= i < |raw| ==> NormalizeToolCall(raw[i], dumps) == Ok(ds[i])
    ensures NormalizesTo(Usable(raw), NonEmpty(ds), dumps)
    decreases |raw|
  {
    if raw != [] {
      assert forall i :: 0 <= i < |raw| - 1 ==> raw[1..][i] == raw[i + 1] && ds[1..][i] == ds[i + 1];
      NonEmptyIsUsable(raw[1..], ds[1..], dumps);
      if raw[0].OpaqueCall? {
        assert Usable(raw) == Usable(raw[1..]);
        assert NonEmpty(ds) == NonEmpty(ds[1..]);
      } else {
        assert "id" in ds[0];
        assert Usable(raw) == [raw[0]] + Usable(raw[1..]);
        assert NonEmpty(ds) == [ds[0]] + NonEmpty(ds[1..]);
        NormalizesToCons(raw[0], Usable(raw[1..]), ds[0], NonEmpty(ds[1..]), dumps);
      }
    }
  }

  /** Normalises each raw call in order, stopping at the first error, and drops the
      empty results. */
  function NormalizeAll(raw: seq<RawCall>, dumps: Json -> string): (r: Result<seq<Dict>, Exc>)
    ensures r.Ok? <==> forall i :: 0 <= i < |raw| ==> NormalizeToolCall(raw[i], dumps).Ok?
    ensures r.Err? ==>
      exists i :: 0 <= i < |raw| && NormalizeToolCall(raw[i], dumps) == Err(r.error)
        && forall k :: 0 <= k < i ==> NormalizeToolCall(raw[k], dumps).Ok?
    ensures r.Ok? ==> NormalizesTo(Usable(raw), r.value, dumps)
  {
    var each := seq(|raw|, i requires 0 <= i < |raw| => NormalizeToolCall(raw[i], dumps));
    assert forall i :: 0 <= i < |raw| ==> each[i] == NormalizeToolCall(raw[i], dumps);
    match AllOk(each)
    case Err(e) =>
      ghost var i :| 0 <= i < |each| && each[i] == Err(e) && forall k :: 0 <= k < i ==> each[k].Ok?;
      assert NormalizeToolCall(raw[i], dumps) == Err(e);
      Err(e)
    case Ok(ds) =>
      NonEmptyIsUsable(raw, ds, dumps);
      Ok(NonEmpty(ds))
  }

  /** What the model's response carries that the workflow reads. */
  datatype Response = Response(content: Json, toolCalls: seq<RawCall>, additionalKwargs: Dict)

  /** The raw calls `_extract_tool_calls` gathers: `response.tool_calls`, then the list
      under `additional_kwargs["tool_calls"]`, if that is a list. */
  function RawCalls(response: Response): (raw: seq<RawCall>)
    ensures var extra := Lookup(response.additionalKwargs, "tool_calls");
      |raw| == |response.toolCalls| + (if extra.JArr? then |extra.items| else 0)
    ensures raw[..|response.toolCalls|] == response.toolCalls
    ensures var extra := Lookup(response.additionalKwargs, "tool_calls");
      extra.JArr? ==> forall i :: 0 <= i < |extra.items| ==> raw[|response.toolCalls| + i] == FromJson(extra.items[i])
  {
    var extra := Lookup(response.additionalKwargs, "tool_calls");
    var more := if extra.JArr? then seq(|extra.items|, i requires 0 <= i < |extra.items| => FromJson(extra.items[i])) else [];
    response.toolCalls + more
  }

  /** `_extract_tool_calls`: the usable calls of both sources, normalised, in order, or
      the error of the first call that does not normalise. */
  function ExtractToolCalls(response: Response, dumps: Json -> string): (r: Result<seq<Dict>, Exc>)
    ensures r.Ok? <==> forall i :: 0 <= i < |RawCalls(response)| ==> NormalizeToolCall(RawCalls(response)[i], dumps).Ok?
    ensures r.Ok? ==> NormalizesTo(Usable(RawCalls(response)), r.value, dumps)
    ensures r.Err? ==>
      exists i :: 0 <= i < |RawCalls(response)| && NormalizeToolCall(RawCalls(response)[i], dumps) == Err(r.error)
        && forall k :: 0 <= k < i ==> NormalizeToolCall(RawCalls(response)[k], dumps).Ok?
    ensures response.toolCalls == [] && !Lookup(response.additionalKwargs, "tool_calls").JArr? ==> r == Ok([])
  {
    NormalizeAll(RawCalls(response), dumps)
  }

  lemma {:induction false} UsableAppend(a: seq<RawCall>, b: seq<RawCall>)
    ensures Usable(a + b) == Usable(a) + Usable(b)
    decreases |a|
  {
    if a == [] {
      assert a + b == b;
    } else {
      assert (a + b)[0] == a[0];
      assert (a + b)[1..] == a[1..] + b;
      UsableAppend(a[1..], b);
    }
  }

  /** Extraction keeps order and duplicates: the normalised `tool_calls` of the response
      come first, then those of `additional_kwargs`. */
  lemma ExtractOrder(response: Response, dumps: Json -> string)
    requires ExtractToolCalls(response, dumps).Ok?
    ensures var extra := Lookup(response.additionalKwargs, "tool_calls");
      var more := if extra.JArr? then seq(|extra.items|, i requires 0 <= i < |extra.items| => FromJson(extra.items[i])) else [];
      var cs := ExtractToolCalls(response, dumps).value;
      && |cs| == |Usable(response.toolCalls)| + |Usable(more)|
      && (forall i :: 0 <= i < |Usable(response.toolCalls)| ==>
            NormalizeToolCall(Usable(response.toolCalls)[i], dumps) == Ok(cs[i]))
      && (forall i :: 0 <= i < |Usable(more)| ==>
            NormalizeToolCall(Usable(more)[i], dumps) == Ok(cs[|Usable(response.toolCalls)| + i]))
  {
    var extra := Lookup(response.additionalKwargs, "tool_calls");
    var more := if extra.JArr? then seq(|extra.items|, i requires 0 <= i < |extra.items| => FromJson(extra.items[i])) else [];
    assert RawCalls(response) == response.toolCalls + more;
    UsableAppend(response.toolCalls, more);
  }

  const MissingName := "LLM 返回的 tool call 缺少名称"

  /** The tool name a call carries: `call["function"]["name"]`, read defensively. */
  function CallName(call: Json): Json {
    var f := if call.JObj? then Get(call.fields, "function", JObj(map[])) else JObj(map[]);
    var meta := if f.JObj? then f.fields else map[];
    Lookup(meta, "name")
  }

  /** The raw arguments a call carries, `"{}"` when absent. */
  function CallArguments(call: Json): Json {
    var f := if call.JObj? then Get(call.fields, "function", JObj(map[])) else JObj(map[]);
    var meta := if f.JObj? then f.fields else map[];
    Get(meta, "arguments", JStr("{}"))
  }

  /** The tool message for one result. */
  function ToolMessage(name: string, callId: Json, result: Json): (m: Json)
    ensures m.JObj? && "role" in m.fields && m.fields["role"] == JStr("tool")
  {
    JObj(map["role" := JStr("tool"), "name" := JStr(name), "tool_call_id" := callId, "content" := result])
  }

  /** A call that names a loaded tool, so that its arguments are parsed and the tool runs. */
  predicate Runnable(call: Json, tools: map<string, Dict -> Result<Json, Exc>>) {
    call.JObj? && CallName(call).JStr? && CallName(call).s != "" && CallName(call).s in tools
  }

  /** The `RuntimeError` that wraps a failure to parse the arguments or to run the tool. */
  function ToolFailed(name: string, e: Exc): Exc {
    Exc(RuntimeError, "工具 " + name + " 执行失败: " + e.text)
  }

  /** One iteration of the loop of `_execute_tool_calls`. */
  function ExecuteOne(call: Json, tools: map<string, Dict -> Result<Json, Exc>>,
                      loads: string -> Option<Json>): (r: Result<Json, Exc>)
    ensures r.Ok? ==> call.JObj? && CallName(call).JStr? && CallName(call).s in tools
    ensures r.Ok? ==>
      var args := ParseArguments(CallArguments(call), loads);
      && args.Ok?
      && tools[CallName(call).s](args.value).Ok?
      && r.value == ToolMessage(CallName(call).s, Get(call.fields, "id", JStr("")),
                                tools[CallName(call).s](args.value).value)
    ensures call.JObj? && !Truthy(CallName(call)) ==> r == Err(Exc(ValueError, MissingName))
    ensures call.JObj? && Truthy(CallName(call)) && Hashable(CallName(call)) && !Runnable(call, tools) ==>
      r == Err(Exc(ValueError, "工具 " + ScalarToString(CallName(call)) + " 未在运行时加载"))
    ensures call.JObj? && Truthy(CallName(call)) && !Hashable(CallName(call)) ==>
      r == Err(Unhashable(CallName(call)))
    ensures Runnable(call, tools) && ParseArguments(CallArguments(call), loads).Err? ==>
      r == Err(ToolFailed(CallName(call).s, ParseArguments(CallArguments(call), loads).error))
    ensures Runnable(call, tools) && ParseArguments(CallArguments(call), loads).Ok? ==>
      var result := tools[CallName(call).s](ParseArguments(CallArguments(call), loads).value);
      && (result.Ok? ==> r.Ok?)
      && (result.Err? ==> r == Err(ToolFailed(CallName(call).s, result.error)))
  {
    var name := CallName(call);
    if !call.JObj? then Err(NoGet(call))
    else if !Truthy(name) then Err(Exc(ValueError, MissingName))
    else if !Hashable(name) then Err(Unhashable(name))
    else if !(name.JStr? && name.s in tools) then
      Err(Exc(ValueError, "工具 " + ScalarToString(name) + " 未在运行时加载"))
    else
      match ParseArguments(CallArguments(call), loads)
      case Err(e) => Err(ToolFailed(name.s, e))
      case Ok(args) =>
        match tools[name.s](args)
        case Err(e) => Err(ToolFailed(name.s, e))
        case Ok(result) => Ok(ToolMessage(name.s, Get(call.fields, "id", JStr("")), result))
  }

  /** `_execute_tool_calls`: one tool message per call, in order, or the first error. */
  function ExecuteToolCalls(calls: seq<Json>, tools: map<string, Dict -> Result<Json, Exc>>,
                            loads: string -> Option<Json>): (r: Result<seq<Json>, Exc>)
    ensures r.Ok? <==> forall i :: 0 <= i < |calls| ==> ExecuteOne(calls[i], tools, loads).Ok?
    ensures r.Ok? ==> |r.value| == |calls|
    ensures r.Ok? ==> forall i :: 0 <= i < |calls| ==> ExecuteOne(calls[i], tools, loads) == Ok(r.value[i])
    ensures r.Err? ==> exists i :: 0 <= i < |calls| && ExecuteOne(calls[i], tools, loads) == Err(r.error) &&
                                   (forall k :: 0 <= k < i ==> ExecuteOne(calls[k], tools, loads).Ok?)
  {
    var each := seq(|calls|, i requires 0 <= i < |calls| => ExecuteOne(calls[i], tools, loads));
    assert forall i :: 0 <= i < |calls| ==> each[i] == ExecuteOne(calls[i], tools, loads);
    AllOk(each)
  }
}
