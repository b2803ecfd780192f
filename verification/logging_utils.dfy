/** The two pure helpers of the logging wrapper (engine/logging_utils.py): the trace id
    a logger is bound to, and the truncation of long log messages. Where the log
    lines go is not modelled. */
module LoggingUtils {
  import opened Wrappers
  import Text
  import PySlice

  const MissingTraceId := "N/A"
  const DefaultMaxLength := 200

  /** The `trace_id` `get_logger` binds: `trace_id or "N/A"`. */
  function BoundTraceId(traceId: Option<string>): (r: string)
    ensures r != ""
    ensures traceId.Some? && traceId.value != "" ==> r == traceId.value
    ensures traceId.None? || traceId.value == "" ==> r == MissingTraceId
  {
    match traceId
    case Some(t) => if t != "" then t else MissingTraceId
    case None => MissingTraceId
  }

  /** What is appended to a truncated message. */
  function TruncationNote(total: nat): (r: string)
    ensures |r| == 31 + |Text.NatToString(total)|
  {
    "... (truncated, total length: " + Text.NatToString(total) + ")"
  }

  /** `sanitize_log_message(msg, max_length)`; `max_length` may be negative, in which
      case `msg[:max_length]` drops characters from the end. */
  function SanitizeLogMessage(msg: string, maxLength: int): (r: string)
    ensures |msg| <= maxLength ==> r == msg
    ensures 0 <= maxLength < |msg| ==> |r| == maxLength + |TruncationNote(|msg|)|
    ensures 0 <= maxLength < |msg| ==>
      r[..maxLength] == msg[..maxLength] && r[maxLength..] == TruncationNote(|msg|)
    ensures maxLength < 0 ==>
      r == msg[..if |msg| + maxLength < 0 then 0 else |msg| + maxLength] + TruncationNote(|msg|)
  {
    if |msg| > maxLength then PySlice.Prefix(msg, maxLength) + TruncationNote(|msg|) else msg
  }

  /** `sanitize_log_message(msg)` with the default limit. */
  function Sanitize(msg: string): (r: string)
    ensures |msg| <= DefaultMaxLength ==> r == msg
    ensures |msg| > DefaultMaxLength ==> |r| > DefaultMaxLength
    ensures |msg| > DefaultMaxLength ==> r[..DefaultMaxLength] == msg[..DefaultMaxLength]
  {
    SanitizeLogMessage(msg, DefaultMaxLength)
  }

  /** A message is changed only when it is longer than the limit, and then the output
      is the limit's worth of it plus the note: so it never exceeds the limit by more
      than the note, and it always reports the original length. */
  lemma SanitizeBound(msg: string, maxLength: nat)
    ensures |SanitizeLogMessage(msg, maxLength)| <= if |msg| <= maxLength then |msg|
                                                  else maxLength + |TruncationNote(|msg|)|
    ensures SanitizeLogMessage(msg, maxLength) == msg || |msg| > maxLength
    ensures |msg| > maxLength ==>
      Text.HasSubstring(SanitizeLogMessage(msg, maxLength), Text.NatToString(|msg|))
  {
    if |msg| > maxLength {
      var r := SanitizeLogMessage(msg, maxLength);
      var digits := Text.NatToString(|msg|);
      var at := maxLength + 30;
      assert r[maxLength..] == TruncationNote(|msg|);
      assert r[at..at + |digits|] == TruncationNote(|msg|)[30..30 + |digits|];
      assert Text.OccursAt(r, digits, at);
    }
  }
}
