# spotlight-python engine core, modelled in Dafny

This project models the core of the spotlight-python engine as pure Dafny
functions over a JSON-value datatype, and proves properties about them. It
covers these parts:

- **Server-Sent Events frames** written to the streaming response (`SseEmitter`).
  They are checked against an independent reader of event streams (`SseStream`),
  which follows section 9.2.6 ("Interpreting an event stream") of the WHATWG HTML
  Living Standard.
- **The frame sequence of `POST /v1/run_workflow`** (`RunWorkflow`). Every
  collaborator the generator calls is reduced to its outcome: it returns or it
  raises.
- **The workflow registry** (`Registry`).
- **The agent-chat workflow**:
  - tool-call plumbing: argument parsing and stringification, normalisation,
    extraction and execution (`ToolCalls`);
  - message conversion and the `llm_node` loop, bounded at five tool rounds
    (`AgentChat`).
- **The knowledge-base metadata store** (`KnowledgeService`). Its `databases`
  table is an insertion-ordered sequence of (kb_id, record) pairs, threaded
  through the create, delete, update, get and list operations.
- **The pure helpers of the file parser** (`FileParser`):
  - `pathlib` suffixes;
  - the extension whitelist and the suffix dispatch;
  - header de-duplication;
  - the image content type;
  - OCR gating;
  - docx line assembly;
  - Excel row-block headings.
- **The tool loader** (`ToolLoader`), **the HTTP tool runner** (`HttpTool`, with
  `raise_for_status` in `Http`) and **the upload client** (`UploadClient`).
- **The logging helpers** (`LoggingUtils`).

Some collaborators become function parameters:

- `json.dumps` and `json.loads` become `dumps` and `loads`;
- the chat model becomes `llm`;
- the network becomes `send`;
- generated ids and the clock become plain string arguments.

Their only assumed properties are named predicates:

- `OneLineDumps`: serialised JSON holds no raw line break;
- `RoundTrips`: `loads` reads back what `dumps` wrote;
- `NeverEmpty`: `dumps` never writes the empty text.

Shared modules:

- `Wrappers`: Option and Result;
- `JsonValue`: truthiness, `dict.get` and `str()`;
- `Exceptions`: Python exception classes as values;
- `Text`: ASCII case mapping, `str(n)` and `join`;
- `PySlice`: Python slicing;
- `Seqs`: generic sequence facts.

## Model

| member | source | states |
|---|---|---|
| SseEmitter.FrameId | engine/sse/emitter.py:18 | A non-empty caller `event_id` is used verbatim; `None` or `""` gives the fresh id. |
| SseEmitter.FormatSse | engine/sse/emitter.py:10-19 | Every frame ends with the blank line that terminates an SSE event. |
| SseEmitter.FrameLines | engine/sse/emitter.py:19 | A frame is read as exactly the four lines `id: eid`, `event: name`, `data: json` and an empty line, whatever follows it. |
| SseEmitter.ReadFrame | engine/sse/emitter.py:19 | From an idle reader, one frame dispatches exactly one event: its type, its data and its id. The reader is left idle and remembers the id. |
| SseEmitter.FormatSseReadBack | engine/sse/emitter.py:10-19 | A client reading a `format_sse` frame receives exactly one message event, carrying the event name, the JSON text of the data and the chosen id. |
| SseEmitter.ReadComment | engine/sse/emitter.py:22-24 | A `:` comment line followed by a blank line dispatches nothing and changes nothing in an idle reader. |
| SseEmitter.ReadKeepalive | engine/sse/emitter.py:22-24 | The keep-alive frame is invisible to a client: no event, no id, no pending data. |
| SseEmitter.UsagePayload | engine/sse/emitter.py:90-96 | An integer usage (a `bool` included) becomes `{prompt_tokens: 0, completion_tokens: 0, total_tokens: n}`; any other usage passes through unchanged. |
| SseEmitter.Render | engine/sse/emitter.py:27-117 | The helpers never pass an `event_id`, so every helper's frame carries the fresh id, with the helper's event name and its data dictionary serialised. |
| SseEmitter.EventData | engine/sse/emitter.py:27-117 | Each helper's data has exactly its keys, with its values. Ping carries only `msg` "keep-alive". Tool thinking carries `msg`. Tool start carries `tool_name` and `args`, and tool result carries `tool_name` and `result`. A message chunk carries `content`. Done carries the expanded usage and the finish reason. An error carries `code` and `msg`. Every helper but ping also carries the caller's trace id. |
| SseEmitter.EventNameOneLine | engine/sse/emitter.py:29-113 | Every helper's event name is non-empty and fits on one line. |
| SseEmitter.EventNamesDistinct | engine/sse/emitter.py:29-113 | The seven helpers use seven distinct event names, so the name identifies the helper. |
| SseEmitter.ReadAll | engine/sse/emitter.py:10-117 | A whole body of frames and keep-alives is read as one event per typed frame, in the order written, each with its own id; keep-alives add nothing. |
| RunWorkflow.SafeMessage | engine/main.py:133-135 | The error message is the exception text for ValueError and TypeError (subclasses included) and "工作流执行失败" for any other exception. |
| RunWorkflow.Answer | engine/main.py:110-116 | The answer is `""` without messages, else the last message's `content` (default `""`). It fails as Python does when the last message has no `.get` or the content has no `len()`. |
| RunWorkflow.Finish | engine/main.py:63-137 | Reports which step ends the generator and the frames it closes with. It closes with answer and `done` iff every step returns, the id resolves, the builder's arguments bind and the answer is read; only then were all five progress frames sent. |
| RunWorkflow.Stream | engine/main.py:58-137 | Any run yields 3 to 7 frames. The first is the "正在初始化工作流..." progress frame. Exactly one terminal frame (`done` or `error`) appears, and it is last. Every frame carries the run's trace id. |
| RunWorkflow.EventStream | engine/main.py:58-137 | With the builder given every argument it requires, the stream starts with the init frame and ends in `done` iff every step returned, the id resolved and the answer was read. |
| RunWorkflow.SuccessFrames | engine/main.py:69-124 | A stream that ends in `done` is exactly five progress frames in order, the answer chunk, and `done` with usage 0 and reason "stop". |
| RunWorkflow.UnknownWorkflow | engine/main.py:86-91 | An unknown workflow id gives three progress frames and then a 400 `error` with the registry's message, and nothing after it. |
| RunWorkflow.ErrorsAreSanitised | engine/main.py:127-137 | A final `error` is either the 400 of an unknown id or a 500 whose message is the sanitised text of an exception some step raised. |
| RunWorkflow.EventStreamAsWritten | engine/main.py:58-137 | With `builder(llm=llm)` as written at engine/main.py:96, no run ends in `done`. Every run that reaches the builder ends in the 500 of the TypeError naming `tools` and `tool_configs`. |
| Registry.GetWorkflowBuilder | engine/workflows/registry.py:24-33 | Succeeds exactly for a listed id, with the builder registered under it; otherwise ValueError "Unknown workflow_id: <id>". |
| Registry.ListWorkflows | engine/workflows/registry.py:36-41 | The registry keys in order: exactly `["agent_chat"]`. |
| Registry.AgentChatRegistered | engine/workflows/registry.py:19-21 | "agent_chat" resolves to `build_agent_chat_graph`, and every other id fails. |
| Registry.Resolves | engine/workflows/registry.py:31-33 | An id resolves iff it is "agent_chat", and then to the agent-chat builder. |
| Registry.Find | engine/workflows/registry.py:31-33 | A lookup finds a builder iff the id is registered, and the pair is in the registry. |
| Registry.Missing | engine/workflows/agent_chat.py:20-25 | The parameters a call leaves out are exactly the required ones not passed. |
| Registry.CallBuilder | engine/workflows/agent_chat.py:20-25 | A builder call binds iff every parameter without a default is passed. Otherwise it raises the TypeError listing the missing ones in declaration order, quoted as CPython quotes them. |
| Registry.QuotedThree | engine/workflows/agent_chat.py:20-25 | CPython lists two missing names as `'a' and 'b'`, and three as `'a', 'b', and 'c'`, with a comma before the "and". |
| Registry.AgentChatNeedsTools | engine/main.py:96 | Called with `llm` alone, the agent-chat builder raises the TypeError naming `tools` and `tool_configs`. |
| Registry.AgentChatBindsAll | engine/workflows/agent_chat.py:20-25 | Called with `llm`, `tools` and `tool_configs`, the agent-chat builder binds. |
| ToolCalls.ParseArguments | engine/workflows/agent_chat.py:319-340 | Falsy gives `{}`, a dict is returned as is, and a string succeeds iff it parses to a JSON object. A non-object string, invalid JSON or any other type raises ValueError with the matching message. |
| ToolCalls.StringifyArguments | engine/workflows/agent_chat.py:356-370 | Falsy gives `""`, a string is kept, and anything else is serialised. |
| ToolCalls.StringifyToolContent | engine/workflows/agent_chat.py:343-353 | Only `None` gives `""`, a string is kept, and anything else is serialised. |
| ToolCalls.StringifyDisagreement | engine/workflows/agent_chat.py:343-370 | The two stringifications differ exactly on `False`, `0`, `[]` and `{}`. |
| ToolCalls.ArgumentsRoundTrip | engine/workflows/agent_chat.py:319-370 | Arguments stringified by `_stringify_arguments` parse back to the same dictionary, the empty one included. |
| ToolCalls.FromJson | engine/workflows/agent_chat.py:215-217 | Of the `additional_kwargs` list, only dictionaries are usable calls. |
| ToolCalls.NormalizeDict | engine/workflows/agent_chat.py:244-266 | The result has keys id, type and function, with `id` defaulting to "" and `type` to "function". Name and arguments come from `function` when present, else from the top level, where `arguments` falls back to `args`. A truthy non-dict `function` raises. |
| ToolCalls.NormalizeToolCall | engine/workflows/agent_chat.py:227-266 | A value that is neither a dict nor a model becomes `{}`. Every other value normalises to the three-key shape or raises. |
| ToolCalls.Usable | engine/workflows/agent_chat.py:219-222 | The calls kept are the usable ones, in order. |
| ToolCalls.NonEmptyIsUsable | engine/workflows/agent_chat.py:219-222 | Dropping the empty normalisations leaves exactly the normalised usable calls, one for one and in order. |
| ToolCalls.NormalizeAll | engine/workflows/agent_chat.py:219-224 | Succeeds iff every call normalises, and then holds the normalised usable calls in order; otherwise it raises the error of the first failing call. |
| ToolCalls.RawCalls | engine/workflows/agent_chat.py:212-217 | The raw calls are `response.tool_calls` followed by the `additional_kwargs["tool_calls"]` list when it is a list. |
| ToolCalls.ExtractToolCalls | engine/workflows/agent_chat.py:203-224 | Succeeds iff every raw call of both sources normalises, and then holds the normalised usable calls in order; otherwise the first failing call's error. A response with no calls gives none. |
| ToolCalls.ExtractOrder | engine/workflows/agent_chat.py:203-224 | Extraction keeps order and duplicates: the response's normalised calls first, then those of `additional_kwargs`. |
| ToolCalls.ExecuteOne | engine/workflows/agent_chat.py:282-314 | A call without a name raises ValueError. A hashable name that is not a loaded tool raises ValueError "工具 <name> 未在运行时加载", where the name is rendered as `str()` renders it. An unhashable name raises TypeError "unhashable type". A call naming a loaded tool succeeds iff its arguments parse and the tool returns. The result is then the tool message with that name, the call id and the tool's result. A parse or tool failure raises RuntimeError "工具 <name> 执行失败: <message>". |
| ToolCalls.ExecuteToolCalls | engine/workflows/agent_chat.py:269-316 | One tool message per call, in order, iff every call succeeds; otherwise it raises the error of the first failing call. |
| AgentChat.DetectContentType | engine/workflows/agent_chat.py:163-182 | The description is "text" exactly for string content. It raises iff a list content has a dictionary item whose `type` is not a string; the TypeError of the join names the first such item. |
| AgentChat.ConvertOne | engine/workflows/agent_chat.py:127-158 | Content that cannot be described raises that TypeError, whatever the role. Otherwise known roles give a message and unknown roles give nothing. A tool message gets stringified content and a `tool_call_id` defaulting to "". The role picks the class: system gives SystemMessage, user gives HumanMessage, assistant gives AIMessage, and tool gives ToolMessage, each holding the content. An assistant message carries `tool_calls` as an extra argument iff the dictionary has them. Content the class refuses raises ValueError "消息格式错误，无法创建 <role> 消息". |
| AgentChat.Known | engine/workflows/agent_chat.py:136-154 | The messages kept are exactly those with a known role. |
| AgentChat.KnownAppend | engine/workflows/agent_chat.py:126-154 | Selection is message by message, so the kept messages stay in conversation order. |
| AgentChat.ConvertMessages | engine/workflows/agent_chat.py:111-160 | Succeeds iff every message converts. It then maps the known-role messages one for one, in order. |
| AgentChat.ConvertCons | engine/workflows/agent_chat.py:126-160 | Conversion of a conversation is its first message's contribution followed by the conversion of the rest. |
| AgentChat.ConvertAppend | engine/workflows/agent_chat.py:126-160 | Converting a concatenation concatenates the conversions. |
| AgentChat.UnknownRoleSkipped | engine/workflows/agent_chat.py:130-154 | Appending a message with an unknown role and describable content changes nothing. |
| AgentChat.UndescribableAborts | engine/workflows/agent_chat.py:42-46 | A message anywhere in the conversation whose content cannot be described makes conversion fail, and `llm_node` raises its ValueError without calling the model. |
| AgentChat.AssistantMessage | engine/workflows/agent_chat.py:185-200 | The message has role "assistant" and content `response.content or ""`. It has `tool_calls` iff calls were extracted, and then they are those calls as dictionaries. Without calls it is a final answer. It has no other keys. |
| AgentChat.AsJson | engine/workflows/agent_chat.py:196-198 | The extracted calls are handed to execution one for one. |
| AgentChat.Ask | engine/workflows/agent_chat.py:42-60 | A conversion failure raises ValueError. A LangChain failure of the model and any other failure raise the two RuntimeError messages. An extraction error propagates unchanged. When conversion, the model call and the extraction all succeed, the result pairs the model's answer with its extracted calls. |
| AgentChat.LlmNode | engine/workflows/agent_chat.py:38-74 | Success extends the conversation, ends it with a final answer and has run fewer than five tool rounds. Entering the sixth round raises "Tool calling exceeded maximum iterations". A failure while asking the model propagates. A failing tool round raises RuntimeError "工具执行失败: <message>". |
| AgentChat.StopsWithoutToolCalls | engine/workflows/agent_chat.py:57-62 | When the response has no tool calls, the node returns at once with the assistant message appended. |
| AgentChat.ToolRoundStep | engine/workflows/agent_chat.py:64-71 | A successful tool round continues with the assistant message and the tool messages appended. |
| AgentChat.RoundConverts | engine/workflows/agent_chat.py:57-71 | When the answer's content and every tool result can be described, the assistant message and the tool messages a round appends convert again in the next round. |
| AgentChat.ExceedsAfterFiveRounds | engine/workflows/agent_chat.py:40-74 | A model that always asks for tools that all run and return describable results makes the node raise RuntimeError after the fifth round. |
| KnowledgeService.Find | engine/services/knowledge_service.py:117 | A lookup finds a record iff the id is in the table, and that pair is in the table. |
| KnowledgeService.NormalizeVisibility | engine/services/knowledge_service.py:84-91 | The result is "private" or "public". It is "public" iff the value, lower-cased, is "public". |
| KnowledgeService.NormalizeVisibilityIdempotent | engine/services/knowledge_service.py:84-91 | Normalising a normalised visibility changes nothing. |
| KnowledgeService.BuildSummary | engine/services/knowledge_service.py:101-113 | The summary carries the id and each of the eight record fields. A missing `kb_name`, `owner`, `tenant`, `embedding_model` or `created_at` gives "", `kb_type` gives "milvus", `visibility` gives "private", and `description` gives None. |
| KnowledgeService.GetRecord | engine/services/knowledge_service.py:115-120 | Succeeds iff the id holds a non-empty record; otherwise 404 "知识库不存在". |
| KnowledgeService.GetDatabase | engine/services/knowledge_service.py:230-238 | The summary of the stored record, or 404 exactly when `_get_record` fails. |
| KnowledgeService.NewId | engine/services/knowledge_service.py:144 | A non-empty requested `kb_id` is used, else the generated one. |
| KnowledgeService.NewRecord | engine/services/knowledge_service.py:151-161 | The new record has exactly the nine fields. `kb_type` is "milvus", visibility is normalised, and `vector_store_config` defaults to `{}`. |
| KnowledgeService.CreateDatabase | engine/services/knowledge_service.py:134-165 | A duplicate id raises 400 "知识库已存在" and returns no table. Otherwise one record is appended after the unchanged old ones and its summary returned; ids stay unique. |
| KnowledgeService.FindAppendAbsent | engine/services/knowledge_service.py:151 | After appending a new id, that id finds the new record and every other id finds what it found before. |
| KnowledgeService.CreateThenGet | engine/services/knowledge_service.py:134-165 | `get_database` on a created id returns the summary `create_database` returned; other ids read as before. |
| KnowledgeService.Remove | engine/services/knowledge_service.py:179 | The ids left are exactly the old ones other than the removed id. With unique ids, the table is the old one with that one entry cut out, the rest in order. |
| KnowledgeService.RemoveFind | engine/services/knowledge_service.py:179 | After removal the id is not found and every other id finds what it found before. |
| KnowledgeService.RemoveAbsent | engine/services/knowledge_service.py:176-177 | Removing an absent id leaves the table as it is. |
| KnowledgeService.RemoveUnique | engine/services/knowledge_service.py:179 | Removal keeps ids unique. |
| KnowledgeService.DeleteDatabase | engine/services/knowledge_service.py:167-182 | Always "success". The id is then absent and its one entry is cut out, the others keeping their order. Deleting a missing id changes nothing, and ids stay unique. |
| KnowledgeService.DeleteIdempotent | engine/services/knowledge_service.py:167-182 | Deleting twice is deleting once, and a deleted id is then not found (404). |
| KnowledgeService.Overwrite | engine/services/knowledge_service.py:194-203 | One guarded assignment writes its key when there is a value and leaves every other key as it was. |
| KnowledgeService.Written | engine/services/knowledge_service.py:194-203 | An update writes only the five updatable fields. |
| KnowledgeService.Apply | engine/services/knowledge_service.py:194-203 | An update never removes a field. |
| KnowledgeService.ApplyKey | engine/services/knowledge_service.py:194-203 | After the update, each key holds the request's value when its guard passes and its old value otherwise, independent of assignment order. The guards are: `kb_name`, `visibility` and `embedding_model` when truthy (visibility normalised); `description` and `vector_store_config` when not None. |
| KnowledgeService.Replace | engine/services/knowledge_service.py:205 | Writing the record back keeps the ids and their order, and changes only the updated id. |
| KnowledgeService.UpdateDatabase | engine/services/knowledge_service.py:184-208 | A missing or empty record raises 404. Otherwise the record under the id becomes the applied update, in place, other records are unchanged, and its summary is returned. |
| KnowledgeService.FixedFields | engine/services/knowledge_service.py:194-203 | `kb_type`, `owner`, `tenant` and `created_at` are not updatable. |
| KnowledgeService.UntouchedField | engine/services/knowledge_service.py:194-203 | A field outside the five updatable ones keeps its presence and value. |
| KnowledgeService.UpdateKeepsIdentity | engine/services/knowledge_service.py:184-208 | An update keeps kb_type, owner, tenant and created_at. Afterwards `get_database` returns the summary the update returned. |
| KnowledgeService.Filtered | engine/services/knowledge_service.py:219-222 | The entries kept are exactly those matching the given owner and tenant; an absent or empty filter is not applied. |
| KnowledgeService.FilteredAppend | engine/services/knowledge_service.py:219-222 | Filtering is entry by entry, so it distributes over concatenation. |
| KnowledgeService.PageStart | engine/services/knowledge_service.py:225 | The start is the larger of `(page - 1) * size` and 0. For page >= 1 and size >= 0 it is `(page - 1) * size`, and page 1 starts at 0. |
| KnowledgeService.Page | engine/services/knowledge_service.py:226-227 | For a non-negative size, the page is the records from the start, clamped to the table, at most `size` of them. |
| KnowledgeService.Summaries | engine/services/knowledge_service.py:227 | One summary per record, in order. |
| KnowledgeService.ListDatabases | engine/services/knowledge_service.py:210-228 | The total counts every matching record. For a non-negative size, the items are the summaries of the matching records from the page start, at most `size` of them, in insertion order. |
| KnowledgeService.PagesPartition | engine/services/knowledge_service.py:224-227 | With a positive size, the i-th matching record is item `i % size` of page `i / size + 1`, so pages cover the records without gap or overlap. |
| KnowledgeService.PageOfIndex | engine/services/knowledge_service.py:225 | Page `i / size + 1` starts `i % size` records before record i. |
| KnowledgeService.CreateCountsForOwner | engine/services/knowledge_service.py:134-228 | A created knowledge base raises its owner's listing total by one. |
| FileParser.SplitSlash | engine/utils/knowledge/file_parser.py:43 | Splitting a path at '/' gives at least one part. |
| FileParser.SplitNoSlash | engine/utils/knowledge/file_parser.py:43 | No part of a split path holds a '/'. |
| FileParser.SplitWhole | engine/utils/knowledge/file_parser.py:43 | A string without '/' splits into itself. |
| FileParser.SplitJoin | engine/utils/knowledge/file_parser.py:43 | Joining the parts with '/' gives the path back. |
| FileParser.SplitAppend | engine/utils/knowledge/file_parser.py:43 | Appending "/name" to a path appends one part, `name`. |
| FileParser.Components | engine/utils/knowledge/file_parser.py:43 | Path components are never empty, ".", or hold a '/'. |
| FileParser.ComponentsAppend | engine/utils/knowledge/file_parser.py:43 | The components of a concatenation are the concatenated components. |
| FileParser.Name | engine/utils/knowledge/file_parser.py:43 | A file name holds no '/' and is never ".". |
| FileParser.PathText | engine/utils/knowledge/file_parser.py:130-134 | The text `str(Path(path))` is never empty. It parses back to the same root and the same components. |
| FileParser.PathTextStable | engine/utils/knowledge/file_parser.py:130-136 | Formatting twice is formatting once. The formatted path has the same name and suffix, so the dispatch reads the suffix the user gave. |
| FileParser.PathTextExamples | engine/utils/knowledge/file_parser.py:134 | "./a.pdf" becomes "a.pdf", "d//x.pdf" becomes "d/x.pdf", and "" becomes ".". "//a" keeps both slashes, and "///a/" becomes "/a". |
| FileParser.NameOfChild | engine/utils/knowledge/file_parser.py:43 | A component appended to any directory with '/' is the path's name. |
| FileParser.NameOfBare | engine/utils/knowledge/file_parser.py:43 | A one-component path is its own name. |
| FileParser.RFind | engine/utils/knowledge/file_parser.py:43 | `rfind` is -1 iff the character is absent. Otherwise it is the index of the character's last occurrence. |
| FileParser.Suffix | engine/utils/knowledge/file_parser.py:43 | The suffix is empty iff the name is shorter than 2, has no dot after its first character, or ends in a dot. Otherwise it is a '.' followed by at least one character and no further dot, and a proper tail of the name. |
| FileParser.SuffixOfFileName | engine/utils/knowledge/file_parser.py:43 | `dir/stem.ext` with a one-dot extension has suffix `.ext`, whatever the directory. |
| FileParser.HandlerFor | engine/utils/knowledge/file_parser.py:138-153 | Some converter handles a lower-cased suffix iff it is in `SUPPORTED_FILE_EXTENSIONS`. Image and Excel converters get only their extensions. |
| FileParser.Dispatch | engine/utils/knowledge/file_parser.py:130-155 | A missing file raises FileNotFoundError, naming the path as `str(Path(path))` formats it. An existing file is accepted iff `is_supported_file_extension` holds; otherwise ValueError names the lower-cased suffix. |
| FileParser.IsSupportedFileExtension | engine/utils/knowledge/file_parser.py:41-43 | A supported path always has a non-empty suffix. |
| FileParser.WhitelistShape | engine/utils/knowledge/file_parser.py:21-38 | Every whitelisted extension is a '.' followed by at least one character, with no further dot and no '/'. |
| FileParser.SupportedFileName | engine/utils/knowledge/file_parser.py:21-43 | A file `stem + ext` whose extension, lower-cased, is whitelisted is supported in any directory and in any letter case, and an existing one is dispatched to a converter. |
| FileParser.Label | engine/utils/knowledge/file_parser.py:370-371 | `None` and blank labels become "Unnamed"; others are kept. |
| FileParser.Labels | engine/utils/knowledge/file_parser.py:369-371 | One label per column, in order. |
| FileParser.UniqueColumns | engine/utils/knowledge/file_parser.py:366-378 | The renaming yields one label per column. |
| FileParser.RenameStep | engine/utils/knowledge/file_parser.py:372-377 | One iteration with the `seen` table gives the label's n-th use the name `label_n`, and keeps `seen` counting the uses so far. |
| FileParser.MakeUniqueColumns | engine/utils/knowledge/file_parser.py:366-378 | The loop with its `seen` table computes, column by column, the first use as is and the n-th repeat as `label_n`. |
| FileParser.CountSnoc | engine/utils/knowledge/file_parser.py:372-377 | Counting one more label raises only that label's count by one. |
| FileParser.UniqueColumnsKeepFirst | engine/utils/knowledge/file_parser.py:375-377 | A column whose label has not occurred before keeps it. |
| FileParser.CountAbsent | engine/utils/knowledge/file_parser.py:372 | A label that never occurred has count 0. |
| FileParser.NotAlwaysUnique | engine/utils/knowledge/file_parser.py:372-377 | Uniqueness is not guaranteed: the header a, a, a_2 becomes a, a_2, a_2. |
| FileParser.GuessImageContentType | engine/utils/knowledge/file_parser.py:381-392 | The result is one of the six image types. It differs from "image/jpeg" iff the lower-cased suffix is one of the non-JPEG keys. Each key maps to its own type, and only ".tif" and ".tiff" give "image/tiff". |
| FileParser.ContentTypeIgnoresCase | engine/utils/knowledge/file_parser.py:392 | Upper- and lower-case suffixes give the same content type. |
| FileParser.ProcessImage | engine/utils/knowledge/file_parser.py:349-363 | `""` iff `enable_ocr` is truthy and not "disable"; otherwise the ValueError asking for OCR. |
| FileParser.ImageLink | engine/utils/knowledge/file_parser.py:319 | An image link is never empty. |
| FileParser.ImageLinks | engine/utils/knowledge/file_parser.py:318-319 | One link per uploaded image, in order. |
| FileParser.JoinMergeHead | engine/utils/knowledge/file_parser.py:319 | Extending the first line with `sep + b` is joining `b` as a further line. |
| FileParser.AddImagesJoin | engine/utils/knowledge/file_parser.py:317-319 | Starting from a non-empty line, the loop gives the line and the image links joined by newlines. |
| FileParser.DocxLine | engine/utils/knowledge/file_parser.py:317-319 | A paragraph's line is its text (if any) and one image link per image, newline-separated, with no leading newline. It is empty iff there is neither text nor image. |
| FileParser.DocxLines | engine/utils/knowledge/file_parser.py:288-321 | The kept lines are never empty, and there are none iff no paragraph has text or images. |
| FileParser.DocxLinesCons | engine/utils/knowledge/file_parser.py:290-321 | The paragraphs are processed in order: the first paragraph's line, if non-empty, comes first. |
| FileParser.DocxMarkdown | engine/utils/knowledge/file_parser.py:287-323 | The markdown is empty iff no paragraph has text or images. A single paragraph gives exactly its line. Two non-empty paragraphs give their lines with a blank line between them. |
| FileParser.DocxMarkdownCons | engine/utils/knowledge/file_parser.py:323 | A non-empty paragraph followed by non-empty markdown gives its line, a blank line, then that markdown. |
| FileParser.EmptyParagraphDropped | engine/utils/knowledge/file_parser.py:320-323 | A paragraph with neither text nor images leaves no trace in the lines or the markdown, wherever it stands. |
| FileParser.BlockStarts | engine/utils/knowledge/file_parser.py:235-236 | The blocks start at every tenth row below the row count, from 0. |
| FileParser.RowBlocks | engine/utils/knowledge/file_parser.py:236-238 | Block k covers rows `idx + 1` to `min(idx + 10, n)`, where `idx` is the block's start. |
| FileParser.BlocksPartition | engine/utils/knowledge/file_parser.py:235-238 | The blocks cut rows 1..n into consecutive runs, none for n = 0. The first starts at 1 and each next one right after the previous. All but the last have ten rows, and the last ends at n. |
| FileParser.RowsCovered | engine/utils/knowledge/file_parser.py:235-238 | Row r lies in block `(r - 1) / 10`. |
| FileParser.BlockHeadings | engine/utils/knowledge/file_parser.py:236-238 | One heading per block, in order. Heading k is "### 数据行 " followed by `10k + 1`, "-" and the block's last row. |
| ToolLoader.BuildToolsFromRuntime | engine/tools/loader.py:8-47 | The tool names are exactly the names of the HTTP and NATIVE configurations. Each is bound to the runner of its last such configuration; other types add nothing. |
| ToolLoader.RegisterStep | engine/tools/loader.py:26-44 | One iteration keeps the map equal to the registration of the configurations read so far. |
| ToolLoader.LoadedNamesStep | engine/tools/loader.py:26-44 | One more configuration adds its name iff it is HTTP or NATIVE. |
| ToolLoader.LastLoadableStep | engine/tools/loader.py:26-41 | A configuration not overridden later is not overridden by an earlier suffix either. |
| ToolLoader.Run | engine/tools/loader.py:29-38 | An HTTP runner executes its configuration. A NATIVE runner always raises NotImplementedError. |
| HttpTool.MethodName | engine/tools/http_tool.py:39 | The method defaults to "GET", and the value is the upper-cased method, with no lower-case ASCII letter left. A non-string method raises AttributeError. |
| HttpTool.AuthHeaders | engine/tools/http_tool.py:43-49 | `target: vault[source]` iff `auth_config` has a truthy `source` present in the vault and a truthy `target`. Otherwise no header, or the error Python raises. |
| HttpTool.BuildRequest | engine/tools/http_tool.py:33-64 | A missing or empty url raises ValueError first. A request is built iff the method is GET, POST, PUT or DELETE and the headers build. GET and DELETE carry the args as query, POST and PUT as JSON body. |
| HttpTool.ResponseValue | engine/tools/http_tool.py:68-74 | The response's JSON, or `{"text": body}` when it is not JSON. |
| HttpTool.ExecuteHttpTool | engine/tools/http_tool.py:12-74 | Configuration errors are raised before sending, and transport errors pass through. A non-2xx status raises HTTPStatusError; otherwise the decoded value is returned. |
| HttpTool.NoRequestOnBadConfig | engine/tools/http_tool.py:35-64 | A configuration error does not depend on the network and is never an HTTP status error. |
| HttpTool.MethodCaseInsensitive | engine/tools/http_tool.py:39 | Spelling the method in lower case builds the same request. |
| Http.RaiseForStatus | engine/tools/http_tool.py:66 | A response passes iff its status is 2xx; otherwise HTTPStatusError. |
| UploadClient.NewClient | engine/utils/storage/upload_client.py:22-35 | An empty upload URL raises ValueError. The file field defaults to "file" and the extra headers to `{}`. |
| UploadClient.ExtractUrl | engine/utils/storage/upload_client.py:65-74 | Succeeds iff the body has a string `url` or a string `data.url`, preferring the top-level one. Otherwise a dictionary body raises ValueError, and another JSON value raises Python's TypeError or AttributeError. |
| UploadClient.UploadBytes | engine/utils/storage/upload_client.py:37-63 | Transport errors pass through and a non-2xx status raises. A non-JSON body raises ValueError "上传响应不是 JSON". Otherwise the result is the URL `_extract_url` finds. |
| UploadClient.UploadRequestShape | engine/utils/storage/upload_client.py:44-49 | The request posts the file under exactly the client's field, with the client's headers, to the client's URL. |
| UploadClient.ExtractUrlShapes | engine/utils/storage/upload_client.py:67-72 | Both response shapes give back their URL, and a top-level `url` wins over `data.url`. |
| LoggingUtils.BoundTraceId | engine/logging_utils.py:26 | The logger binds the trace id, or "N/A" when it is None or empty. |
| LoggingUtils.SanitizeLogMessage | engine/logging_utils.py:29-41 | A message within the limit is unchanged. A longer one is its first `max_length` characters followed by the truncation note; a negative limit cuts from the end, as Python slicing does. |
| LoggingUtils.Sanitize | engine/logging_utils.py:29-41 | With the default limit of 200, a long message keeps its first 200 characters and grows longer than 200. |
| LoggingUtils.SanitizeBound | engine/logging_utils.py:39-40 | A truncated message is at most the limit plus the note, and it reports the original length. |

## Left out

- I/O is not modelled:
  - the metadata file load and save;
  - Milvus connection and write tests;
  - the httpx transports, which become the `send` parameter;
  - the remote download and temporary-file cleanup of the file parser;
  - log output.
- The `asyncio.Lock` of the knowledge service is not modelled; each operation is atomic.
- LangChain, LangGraph and model calls are not modelled: graph compilation, `_bind_llm_tools` and `bind_tools` are left out. The chat model is the `llm` parameter, of which only the exception class it raised is kept.
- `_detect_content_type` is modelled only as far as conversion depends on it. Its description feeds a debug log line, which is not modelled. Its join can raise, and that failure is modelled.
- Conversion libraries are not modelled: PDF, HTML, CSV, Excel and `.doc` conversion, zip and XML reading, `chunk_text` and `urlparse`. Of the Excel conversion only the row-block headings are modelled, and of docx only the line assembly.
- `json.dumps`/`json.loads`, `uuid4` and the clock are parameters: their character-level output is not modelled.
- JSON objects are maps, so key order inside a dictionary is not modelled. The knowledge table, whose order matters, is a sequence. Floating-point values are not in the JSON datatype.
- Case mapping is ASCII only. For `lower()` this is exact where it matters: the lower-cased text is only compared with ASCII constants, namely the extension whitelist, the image types and the visibility set. The only non-ASCII character Python lower-cases to ASCII text is the Kelvin sign, and no such constant contains 'k'. An error text that embeds a lower-cased suffix differs from Python when the suffix has a non-ASCII capital letter.
- HttpTool.MethodName: Python's `upper()` maps some non-ASCII letters to ASCII: 'ſ' to "S", 'ß' to "SS", 'ı' to "I", and the ligatures 'ﬅ' and 'ﬆ' to "ST". So "poſt" is sent as POST in Python but rejected as unsupported by the model. The model's "same length" holds only for its ASCII mapping. The "Unsupported HTTP method" text differs on any non-ASCII letter. MethodCaseInsensitive is likewise a statement about ASCII spellings.
- `Path(...).suffix` is modelled for '/'-separated paths. Windows drive letters and backslashes are not modelled.
- `format_keepalive` is modelled as the constant `Keepalive`; engine/main.py imports it but never sends it.
- Python exception texts are modelled where the code shows them. The texts Python itself produces follow CPython 3.11 wording, and an `HTTPStatusError` carries only the status code as text.
- AgentChat.ConvertOne: assumes the chat-model message classes accept any `tool_call_id` value; their own validation is not modelled.
- KnowledgeService.ListDatabases: the page contents are stated for a non-negative `size` only. A negative size is computed with Python slice semantics but nothing is proved about it.
- FileParser.UniqueColumns: states only the length. The per-column contents are stated by MakeUniqueColumns, UniqueColumnsKeepFirst and NotAlwaysUnique.
- SseEmitter.FormatSse: states only the blank-line ending. The full frame content is stated through the reader by FormatSseReadBack.
- KnowledgeService.Apply: states only that no field is removed. The value of each key is stated by ApplyKey.
- RunWorkflow.EventStream models the generator with the builder call it evidently intends; see Findings.

## Findings

| source | as written | input that shows it | evidently intended | confidence | as-written member | corrected member |
|---|---|---|---|---|---|---|
| engine/main.py:96 | `graph = builder(llm=llm)` passes only `llm`, but `build_agent_chat_graph(llm, tools, tool_configs, trace_id=None)` has no defaults for `tools` and `tool_configs`. The call raises TypeError and the stream ends with a 500 error. | Any run whose model and tools build and whose workflow id is "agent_chat". | Pass the loaded tools and the tool configurations: `builder(llm=llm, tools=tools, tool_configs=...)`. A run whose steps all succeed then ends in `message_chunk` and `done`. | not executed | RunWorkflow.EventStreamAsWritten | RunWorkflow.EventStream |
