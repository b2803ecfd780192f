/** How a receiving client reads a `text/event-stream` body: the line splitting and
    field interpretation of section 9.2.6 ("Interpreting an event stream") of the
    WHATWG HTML Living Standard. This is the independent reference against which
    the frames built in `SseEmitter` are checked. The `retry` field (reconnection
    time) does not affect dispatched events and is ignored. */
module SseStream {

  predicate IsLineBreak(c: char) {
    c == '\n' || c == '\r'
  }

  /** A field value that can sit on one line and, as an `id`, is not refused. */
  predicate SafeField(s: string) {
    forall i :: 0 <= i < |s| ==> !IsLineBreak(s[i]) && s[i] != '\0'
  }

  predicate NoLineBreak(s: string) {
    forall i :: 0 <= i < |s| ==> !IsLineBreak(s[i])
  }

  /** Index of the first CR or LF in `s`, or `|s|` when there is none. */
  function FirstBreak(s: string): (i: nat)
    ensures i <= |s|
    ensures i < |s| ==> IsLineBreak(s[i])
    ensures forall k :: 0 <= k < i ==> !IsLineBreak(s[k])
  {
    if |s| == 0 || IsLineBreak(s[0]) then 0 else 1 + FirstBreak(s[1..])
  }

  /** The complete lines of a stream. A line ends in CRLF, LF or CR; text after the
      last line ending is an unfinished line and is discarded. */
  function Lines(s: string): seq<string>
    decreases |s|
  {
    var i := FirstBreak(s);
    if i == |s| then []
    else
      var next := if s[i] == '\r' && i + 1 < |s| && s[i + 1] == '\n' then i + 2 else i + 1;
      [s[..i]] + Lines(s[next..])
  }

  /** What an `EventSource` hands to its listeners. */
  datatype MessageEvent = MessageEvent(eventType: string, data: string, lastEventId: string)

  /** The parser's buffers: data, event type and last event ID. */
  datatype Parser = Parser(data: string, eventType: string, lastEventId: string)

  const Initial := Parser("", "", "")

  /** A parser between events: nothing is pending. */
  predicate Idle(p: Parser) {
    p.data == "" && p.eventType == ""
  }

  function ProcessField(p: Parser, name: string, value: string): Parser {
    if name == "event" then p.(eventType := value)
    else if name == "data" then p.(data := p.data + value + "\n")
    else if name == "id" then (if '\0' in value then p else p.(lastEventId := value))
    else p
  }

  /** Index of the first colon of a line, or its length. */
  function ColonIndex(s: string): (i: nat)
    ensures i <= |s|
    ensures i < |s| ==> s[i] == ':'
    ensures forall k :: 0 <= k < i ==> s[k] != ':'
  {
    if |s| == 0 || s[0] == ':' then 0 else 1 + ColonIndex(s[1..])
  }

  /** A blank line dispatches the pending event, if any data was buffered. */
  function Dispatch(p: Parser): (Parser, seq<MessageEvent>) {
    if p.data == "" then (p.(eventType := ""), [])
    else
      var d := if p.data[|p.data| - 1] == '\n' then p.data[..|p.data| - 1] else p.data;
      var t := if p.eventType == "" then "message" else p.eventType;
      (Parser("", "", p.lastEventId), [MessageEvent(t, d, p.lastEventId)])
  }

  function ProcessLine(p: Parser, line: string): (Parser, seq<MessageEvent>) {
    if line == "" then Dispatch(p)
    else if line[0] == ':' then (p, [])
    else
      var c := ColonIndex(line);
      if c < |line| then
        var v := line[c + 1..];
        var value := if |v| > 0 && v[0] == ' ' then v[1..] else v;
        (ProcessField(p, line[..c], value), [])
      else (ProcessField(p, line, ""), [])
  }

  function Interpret(p: Parser, lines: seq<string>): seq<MessageEvent>
    decreases |lines|
  {
    if lines == [] then []
    else
      var (p', evs) := ProcessLine(p, lines[0]);
      evs + Interpret(p', lines[1..])
  }

  /** The events a client that has just connected sees for a whole stream body. */
  function Events(stream: string): seq<MessageEvent> {
    Interpret(Initial, Lines(stream))
  }

  /** The parser state an `Interpret` run ends in. */
  function Final(p: Parser, lines: seq<string>): Parser
    decreases |lines|
  {
    if lines == [] then p else Final(ProcessLine(p, lines[0]).0, lines[1..])
  }

  /** A line without line breaks, followed by LF, is read back as that line. */
  lemma {:induction false} LinesCons(l: string, rest: string)
    requires NoLineBreak(l)
    ensures Lines(l + "\n" + rest) == [l] + Lines(rest)
  {
    var s := l + "\n" + rest;
    var i := FirstBreak(s);
    assert s[|l|] == '\n';
    assert i == |l|;
    assert s[..i] == l;
    assert s[i + 1..] == rest;
  }

  /** Reading several lines one after the other is reading them in sequence. */
  lemma {:induction false} InterpretAppend(p: Parser, a: seq<string>, b: seq<string>)
    ensures Interpret(p, a + b) == Interpret(p, a) + Interpret(Final(p, a), b)
    decreases |a|
  {
    if a == [] {
      assert a + b == b;
    } else {
      assert (a + b)[0] == a[0];
      assert (a + b)[1..] == a[1..] + b;
      InterpretAppend(ProcessLine(p, a[0]).0, a[1..], b);
    }
  }
}
