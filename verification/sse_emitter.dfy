/** Server-Sent Events frames, as written to the streaming HTTP response
    (engine/sse/emitter.py). JSON serialisation is a parameter `dumps`. */
module SseEmitter {
  import opened Wrappers
  import opened JsonValue
  import opened SseStream
  import opened Seqs

  /** `json.dumps(value, ensure_ascii=False)` without `indent` never writes a raw line
      break: line breaks inside strings are escaped. */
  ghost predicate OneLineDumps(dumps: Json -> string) {
    forall j :: NoLineBreak(dumps(j))
  }

  /** `event_id or str(uuid4())`; the freshId identifier is a parameter. */
  function FrameId(eventId: Option<string>, freshId: string): (eid: string)
    ensures eventId.Some? && eventId.value != "" ==> eid == eventId.value
    ensures eventId.None? || eventId.value == "" ==> eid == freshId
  {
    match eventId
    case Some(e) => if e != "" then e else freshId
    case None => freshId
  }

  /** The three field lines of one frame and the blank line that ends it:
      `f"id: {eid}\nevent: {event}\ndata: {payload}\n\n"`. */
  function RawFrame(eid: string, event: string, payload: string): (frame: string)
    ensures |frame| >= 2 && frame[|frame| - 2..] == "\n\n"
  {
    ("id: " + eid + "\n") + (("event: " + event + "\n") + (("data: " + payload + "\n") + "\n"))
  }

  /** `format_sse(event, data, event_id)`. */
  function FormatSse(event: string, data: Dict, eventId: Option<string>, freshId: string,
                     dumps: Json -> string): (frame: string)
    ensures |frame| >= 2 && frame[|frame| - 2..] == "\n\n"
  {
    RawFrame(FrameId(eventId, freshId), event, dumps(JObj(data)))
  }

  /** `format_keepalive()`: a comment line and the blank line ending it. */
  const Keepalive: string := ": keep-alive\n\n"

  /** The typed events the helper functions of the emitter build. */
  datatype Event =
    | Ping
    | ToolThinking(msg: string, traceId: string)
    | ToolStart(toolName: string, args: Dict, traceId: string)
    | ToolResult(toolName: string, result: Json, traceId: string)
    | MessageChunk(content: Json, traceId: string)
    | Done(usage: Json, finishReason: string, traceId: string)
    | Error(code: int, msg: string, traceId: string)

  /** The fixed `event:` name each helper uses. */
  function EventName(e: Event): string {
    match e
    case Ping => "ping"
    case ToolThinking(_, _) => "tool_thinking"
    case ToolStart(_, _, _) => "tool_start"
    case ToolResult(_, _, _) => "tool_result"
    case MessageChunk(_, _) => "message_chunk"
    case Done(_, _, _) => "done"
    case Error(_, _, _) => "error"
  }

  /** `format_done` accepts a bare integer (Python `bool` is an `int` too) for backward
      compatibility and expands it to a usage dictionary; anything else passes through. */
  function UsagePayload(usage: Json): (u: Json)
    ensures (usage.JInt? || usage.JBool?) ==>
      u.JObj? && u.fields.Keys == {"prompt_tokens", "completion_tokens", "total_tokens"}
      && u.fields["prompt_tokens"] == JInt(0) && u.fields["completion_tokens"] == JInt(0)
      && u.fields["total_tokens"] == usage
    ensures !(usage.JInt? || usage.JBool?) ==> u == usage
  {
    if usage.JInt? || usage.JBool? then
      JObj(map["prompt_tokens" := JInt(0), "completion_tokens" := JInt(0), "total_tokens" := usage])
    else usage
  }

  lemma EventNameOneLine(e: Event)
    ensures NoLineBreak(EventName(e)) && EventName(e) != ""
  {
    match e
    case Ping => {}
    case ToolThinking(_, _) => {}
    case ToolStart(_, _, _) => {}
    case ToolResult(_, _, _) => {}
    case MessageChunk(_, _) => {}
    case Done(_, _, _) => {}
    case Error(_, _, _) => {}
  }

  /** The `data:` dictionary of each helper. Every helper but `format_ping` carries the
      caller's trace id, and an error carries nothing but code, message and trace id. */
  function EventData(e: Event): (data: Dict)
    ensures !e.Ping? ==> "trace_id" in data && data["trace_id"] == JStr(e.traceId)
    ensures e.Error? ==>
      data.Keys == {"code", "msg", "trace_id"} && data["code"] == JInt(e.code) && data["msg"] == JStr(e.msg)
    ensures e.Done? ==>
      && "usage" in data && data["usage"] == UsagePayload(e.usage)
      && "finish_reason" in data && data["finish_reason"] == JStr(e.finishReason)
    ensures e.Done? ==> data.Keys == {"usage", "finish_reason", "trace_id"}
    ensures e.Ping? ==> data == map["msg" := JStr("keep-alive")]
    ensures e.ToolThinking? ==> data.Keys == {"msg", "trace_id"} && data["msg"] == JStr(e.msg)
    ensures e.ToolStart? ==>
      data.Keys == {"tool_name", "args", "trace_id"} && data["tool_name"] == JStr(e.toolName) && data["args"] == JObj(e.args)
    ensures e.ToolResult? ==>
      data.Keys == {"tool_name", "result", "trace_id"} && data["tool_name"] == JStr(e.toolName) && data["result"] == e.result
    ensures e.MessageChunk? ==> data.Keys == {"content", "trace_id"} && data["content"] == e.content
  {
    match e
    case Ping => map["msg" := JStr("keep-alive")]
    case ToolThinking(msg, t) => map["msg" := JStr(msg), "trace_id" := JStr(t)]
    case ToolStart(name, args, t) => map["tool_name" := JStr(name), "args" := JObj(args), "trace_id" := JStr(t)]
    case ToolResult(name, result, t) => map["tool_name" := JStr(name), "result" := result, "trace_id" := JStr(t)]
    case MessageChunk(content, t) => map["content" := content, "trace_id" := JStr(t)]
    case Done(usage, reason, t) =>
      map["usage" := UsagePayload(usage), "finish_reason" := JStr(reason), "trace_id" := JStr(t)]
    case Error(code, msg, t) => map["code" := JInt(code), "msg" := JStr(msg), "trace_id" := JStr(t)]
  }

  /** The helper call for `e`; helpers never pass an id, so the frame id is always freshId. */
  function Render(e: Event, freshId: string, dumps: Json -> string): (frame: string)
    ensures frame == RawFrame(freshId, EventName(e), dumps(JObj(EventData(e))))
  {
    FormatSse(EventName(e), EventData(e), None, freshId, dumps)
  }

  /** What goes on the wire: a typed frame with its freshId id, or a keep-alive comment. */
  datatype WireItem = Typed(event: Event, id: string) | KeepAliveComment

  function RenderItem(w: WireItem, dumps: Json -> string): string {
    match w
    case Typed(e, id) => Render(e, id, dumps)
    case KeepAliveComment => Keepalive
  }

  function RenderAll(ws: seq<WireItem>, dumps: Json -> string): string
    decreases |ws|
  {
    if ws == [] then "" else RenderItem(ws[0], dumps) + RenderAll(ws[1..], dumps)
  }

  /** What a client is expected to receive for a wire sequence: one message event per
      typed frame, in order; keep-alive comments are invisible. */
  function Received(ws: seq<WireItem>, dumps: Json -> string): seq<MessageEvent>
    decreases |ws|
  {
    if ws == [] then []
    else match ws[0]
      case Typed(e, id) =>
        [MessageEvent(EventName(e), dumps(JObj(EventData(e))), id)] + Received(ws[1..], dumps)
      case KeepAliveComment => Received(ws[1..], dumps)
  }

  predicate SafeIds(ws: seq<WireItem>) {
    forall i :: 0 <= i < |ws| ==> ws[i].Typed? ==> SafeField(ws[i].id)
  }

  lemma NoLineBreakAppend(a: string, b: string)
    requires NoLineBreak(a) && NoLineBreak(b)
    ensures NoLineBreak(a + b)
  {
    forall i | 0 <= i < |a + b|
      ensures !IsLineBreak((a + b)[i])
    {
      if i < |a| { assert (a + b)[i] == a[i]; } else { assert (a + b)[i] == b[i - |a|]; }
    }
  }

  /** The four lines a frame consists of, followed by whatever comes next. */
  lemma {:induction false} FrameLines(eid: string, event: string, payload: string, rest: string)
    requires SafeField(eid) && NoLineBreak(event) && NoLineBreak(payload)
    ensures Lines(RawFrame(eid, event, payload) + rest)
         == ["id: " + eid, "event: " + event, "data: " + payload, ""] + Lines(rest)
  {
    var l1, l2, l3 := "id: " + eid, "event: " + event, "data: " + payload;
    assert NoLineBreak(eid);
    NoLineBreakAppend("id: ", eid);
    NoLineBreakAppend("event: ", event);
    NoLineBreakAppend("data: ", payload);
    var a, b, c := l1 + "\n", l2 + "\n", l3 + "\n";
    var s3 := "" + "\n" + rest;
    assert s3 == "\n" + rest;
    var y := b + (c + "\n");
    assert RawFrame(eid, event, payload) == a + y;
    Associative(a, y, rest);
    Associative(b, c + "\n", rest);
    Associative(c, "\n", rest);
    assert y + rest == b + (c + s3);
    assert (a + y) + rest == a + (y + rest);
    assert a + (y + rest) == a + (b + (c + s3));
    assert RawFrame(eid, event, payload) + rest == (a + y) + rest;
    LinesCons("", rest);
    LinesCons(l3, s3);
    LinesCons(l2, c + s3);
    LinesCons(l1, b + (c + s3));
    Cons4(l1, l2, l3, "", Lines(rest));
  }

  /** A `name: value` line sets field `name` to `value`. */
  lemma FieldLine(p: Parser, name: string, value: string)
    requires |name| > 0 && forall k :: 0 <= k < |name| ==> name[k] != ':'
    ensures ProcessLine(p, name + ": " + value) == (ProcessField(p, name, value), [])
  {
    var line := name + ": " + value;
    assert line[|name|] == ':';
    assert line[0] == name[0];
    assert ColonIndex(line) == |name|;
    assert line[..|name|] == name;
    assert line[|name| + 1..] == " " + value;
  }

  lemma InterpretCons(p: Parser, l: string, rest: seq<string>)
    ensures Interpret(p, [l] + rest) == ProcessLine(p, l).1 + Interpret(ProcessLine(p, l).0, rest)
  {
    assert ([l] + rest)[0] == l;
    assert ([l] + rest)[1..] == rest;
  }

  /** Reading one frame from an idle parser yields its one event and an idle parser
      remembering the frame id. */
  lemma {:induction false} ReadFrame(p: Parser, eid: string, event: string, payload: string, rest: string)
    requires Idle(p) && SafeField(eid) && NoLineBreak(event) && NoLineBreak(payload) && event != ""
    ensures Interpret(p, Lines(RawFrame(eid, event, payload) + rest))
         == [MessageEvent(event, payload, eid)] + Interpret(Parser("", "", eid), Lines(rest))
  {
    FrameLines(eid, event, payload, rest);
    var tail := Lines(rest);
    var l1, l2, l3 := "id: " + eid, "event: " + event, "data: " + payload;
    Cons4(l1, l2, l3, "", tail);
    ReadFrameLines(p, eid, event, payload, tail);
  }

  lemma ReadFrameLines(p: Parser, eid: string, event: string, payload: string, tail: seq<string>)
    requires Idle(p) && SafeField(eid) && event != ""
    ensures Interpret(p, ["id: " + eid] + (["event: " + event] + (["data: " + payload] + ([""] + tail))))
         == [MessageEvent(event, payload, eid)] + Interpret(Parser("", "", eid), tail)
  {
    var p1 := p.(lastEventId := eid);
    var p2 := p1.(eventType := event);
    var p3 := p2.(data := payload + "\n");
    StepId(p, eid, ["event: " + event] + (["data: " + payload] + ([""] + tail)));
    StepEvent(p1, event, ["data: " + payload] + ([""] + tail));
    StepData(p2, payload, [""] + tail);
    DispatchStep(p3, payload, tail);
  }

  lemma StepId(p: Parser, eid: string, rest: seq<string>)
    requires SafeField(eid)
    ensures Interpret(p, ["id: " + eid] + rest) == Interpret(p.(lastEventId := eid), rest)
  {
    assert "id: " + eid == "id" + ": " + eid;
    StepField(p, "id", eid, rest);
    NoNul(eid);
  }

  lemma StepEvent(p: Parser, event: string, rest: seq<string>)
    ensures Interpret(p, ["event: " + event] + rest) == Interpret(p.(eventType := event), rest)
  {
    assert "event: " + event == "event" + ": " + event;
    StepField(p, "event", event, rest);
  }

  lemma StepData(p: Parser, payload: string, rest: seq<string>)
    requires p.data == ""
    ensures Interpret(p, ["data: " + payload] + rest) == Interpret(p.(data := payload + "\n"), rest)
  {
    assert "data: " + payload == "data" + ": " + payload;
    StepField(p, "data", payload, rest);
    assert "" + payload + "\n" == payload + "\n";
  }

  lemma DispatchStep(p: Parser, payload: string, rest: seq<string>)
    requires p.data == payload + "\n" && p.eventType != ""
    ensures Interpret(p, [""] + rest)
         == [MessageEvent(p.eventType, payload, p.lastEventId)] + Interpret(Parser("", "", p.lastEventId), rest)
  {
    assert p.data[..|p.data| - 1] == payload;
    assert ProcessLine(p, "") == (Parser("", "", p.lastEventId), [MessageEvent(p.eventType, payload, p.lastEventId)]);
    InterpretCons(p, "", rest);
  }

  lemma StepField(p: Parser, name: string, value: string, rest: seq<string>)
    requires |name| > 0 && forall k :: 0 <= k < |name| ==> name[k] != ':'
    ensures Interpret(p, [name + ": " + value] + rest) == Interpret(ProcessField(p, name, value), rest)
  {
    FieldLine(p, name, value);
    InterpretCons(p, name + ": " + value, rest);
  }

  lemma NoNul(s: string)
    requires SafeField(s)
    ensures !('\0' in s)
  {
  }

  /** A comment line followed by a blank line dispatches nothing from an idle parser. */
  lemma ReadComment(p: Parser, c: string, rest: string)
    requires Idle(p) && NoLineBreak(c) && |c| > 0 && c[0] == ':'
    ensures Interpret(p, Lines(c + "\n" + ("\n" + rest))) == Interpret(p, Lines(rest))
  {
    var tail := "\n" + rest;
    assert tail == "" + "\n" + rest;
    LinesCons("", rest);
    LinesCons(c, tail);
    Cons2(c, "", Lines(rest));
    assert ProcessLine(p, c) == (p, []);
    InterpretCons(p, c, [""] + Lines(rest));
    assert ProcessLine(p, "") == (p, []);
    InterpretCons(p, "", Lines(rest));
  }

  /** Reading the keep-alive comment dispatches nothing and leaves an idle parser idle. */
  lemma ReadKeepalive(p: Parser, rest: string)
    requires Idle(p)
    ensures Interpret(p, Lines(Keepalive + rest)) == Interpret(p, Lines(rest))
  {
    var c := ": keep-alive";
    assert Keepalive + rest == c + "\n" + ("\n" + rest);
    assert c[0] == ':';
    ReadComment(p, c, rest);
  }

  /** `format_sse` read back: a client receives exactly one event, whose type is
      `event`, whose data is the JSON text of `data` and whose id is the caller's
      non-empty `event_id` or else the freshId one. */
  lemma FormatSseReadBack(event: string, data: Dict, eventId: Option<string>, freshId: string,
                          dumps: Json -> string)
    requires SafeField(FrameId(eventId, freshId)) && NoLineBreak(event) && event != ""
    requires NoLineBreak(dumps(JObj(data)))
    ensures Events(FormatSse(event, data, eventId, freshId, dumps))
         == [MessageEvent(event, dumps(JObj(data)), FrameId(eventId, freshId))]
  {
    var f := FormatSse(event, data, eventId, freshId, dumps);
    assert f + "" == f;
    ReadFrame(Initial, FrameId(eventId, freshId), event, dumps(JObj(data)), "");
    assert Lines("") == [];
  }

  /** A whole response body, read by a client: the typed frames arrive as events in the
      order written, each with its own id, and keep-alive comments are invisible. */
  lemma {:induction false} ReadAll(p: Parser, ws: seq<WireItem>, dumps: Json -> string)
    requires Idle(p) && SafeIds(ws) && OneLineDumps(dumps)
    ensures Interpret(p, Lines(RenderAll(ws, dumps))) == Received(ws, dumps)
    decreases |ws|
  {
    if ws == [] {
      assert Lines("") == [];
    } else {
      var rest := RenderAll(ws[1..], dumps);
      assert SafeIds(ws[1..]) by {
        forall i | 0 <= i < |ws[1..]| && ws[1..][i].Typed?
          ensures SafeField(ws[1..][i].id)
        {
          assert ws[1..][i] == ws[i + 1];
        }
      }
      match ws[0]
      case Typed(e, id) => {
        assert SafeField(ws[0].id);
        EventNameOneLine(e);
        ReadFrame(p, id, EventName(e), dumps(JObj(EventData(e))), rest);
        ReadAll(Parser("", "", id), ws[1..], dumps);
      }
      case KeepAliveComment => {
        ReadKeepalive(p, rest);
        ReadAll(p, ws[1..], dumps);
      }
    }
  }

  /** Distinct helpers use distinct event names, so a client can tell them apart. */
  lemma EventNamesDistinct(a: Event, b: Event)
    requires EventName(a) == EventName(b)
    ensures a.Ping? == b.Ping? && a.ToolThinking? == b.ToolThinking? && a.ToolStart? == b.ToolStart?
      && a.ToolResult? == b.ToolResult? && a.MessageChunk? == b.MessageChunk?
      && a.Done? == b.Done? && a.Error? == b.Error?
  {
  }
}
