# dashscope: streaming accumulation, TingWu protocol builders, HTTP request setup

A Dafny model of three pieces of the dashscope Python SDK, with proofs about each.

- **`merge_single_response`** (`dashscope/utils/message_utils.py`). This is the accumulator for
  streamed chat responses. The service sends one partial response (a *chunk*) at a time. The
  accumulator keeps a state map from choice index to everything received so far. It rewrites each
  chunk so that it carries the accumulated value instead of only the latest delta. It accumulates:
  - plain `output.text`;
  - string content;
  - multimodal content given as a list of parts;
  - `reasoning_content`;
  - tool-call fragments, keyed by their `index`;
  - `logprobs.content`.

  Module `MessageUtils` has one function per step (`Accumulate*`). It also runs the source's loops
  as methods, each proved equal to its function. Module `MessageStreams` proves properties of
  whole streams of chunks.
- **The TingWu realtime protocol** (`dashscope/multimodal/tingwu/tingwu_realtime.py`):
  - the start and stop requests: header, payload, body input and start parameters;
  - the builder's one piece of state, the task id, which is drawn once and then reused;
  - the dispatch of one server message to callback events.

  Module `TingWu` builds requests and reads server messages as parsed JSON trees (`Values.Value`).
  Python's `in` and `[]` are modelled with their `KeyError` and `TypeError`.
- **`HttpRequest`** (`dashscope/api_entities/http_request.py`):
  - the headers, URL and timeout the constructor sets up;
  - `add_header` and `add_headers`;
  - the conversion of a response into response records. For an event stream this is one record
    per event, with the request id carried from event to event.

  This is module `Http`.

Parameters of the model:
- uuid (the random identifier);
- the SDK constants `SSE_CONTENT_TYPE`, `HTTPMethod.POST` and `DEFAULT_REQUEST_TIMEOUT_SECONDS` (`Http.Constants`);
- the headers the base class sets up before `HttpRequest.__init__` runs.

`wrappers.dfy` holds `Option` and `Result`. `values.dfy` holds JSON values and Python's truthiness, `in` and `[]` on them.

## Model

| member | source | states |
|---|---|---|
| MessageUtils.StateOf | dashscope/utils/message_utils.py:11-17 | A known key keeps its state; a new key starts as empty content, empty reasoning, no tool calls and no log-probabilities. |
| MessageUtils.ChoiceKey | dashscope/utils/message_utils.py:24-29 | The state key is the choice's own `index` when it has one, else its position in the chunk. |
| MessageUtils.AccumulateParts | dashscope/utils/message_utils.py:46-63 | The accumulated list grows to max(old, incoming) length. Each position gains the text fragment of the incoming dict item there. Each item with a non-empty text is rewritten to the accumulated text. All other items are unchanged. |
| MessageUtils.AccumulateContent | dashscope/utils/message_utils.py:42-70 | Empty or absent content changes nothing. A string appends, resetting a list accumulator to '', and the outgoing content is the accumulated string. A list resets a string accumulator to [] and merges part by part. |
| MessageUtils.AccumulateReasoning | dashscope/utils/message_utils.py:73-78 | A present `reasoning_content`, even an empty one, appends and sets the outgoing value to the whole accumulated reasoning. An absent one changes nothing. |
| MessageUtils.ReasoningField | dashscope/utils/message_utils.py:73-76 | An absent key is absent. A present falsy value, null included, appends nothing but is still present (`Some("")`). A string is appended. A truthy non-string raises TypeError, as `str +=` does. |
| MessageUtils.PresentReasoningRewrites | dashscope/utils/message_utils.py:73-78 | Any present `reasoning_content` that does not raise, null included, rewrites the outgoing value to the whole accumulated reasoning. A falsy one appends nothing. |
| MessageUtils.FindCall | dashscope/utils/message_utils.py:89-95 | Returns the first accumulated call with that index, or none exactly when no call has it. |
| MessageUtils.Concat | dashscope/utils/message_utils.py:104-114 | A present fragment is appended to the stored string, starting from '' when the stored one is missing. An absent fragment leaves the stored string as it is. |
| MessageUtils.MergeFunction | dashscope/utils/message_utils.py:99-121 | `name` and `arguments` are concatenated. Other truthy `function` fields overwrite the stored ones. Falsy ones never do. No other key appears. |
| MessageUtils.MergeCall | dashscope/utils/message_utils.py:97-121 | The index is kept. A truthy `function` is merged field by field. Other truthy top-level fields win, and falsy ones never overwrite. |
| MessageUtils.AccumulateToolCalls | dashscope/utils/message_utils.py:85-124 | The loop over one `tool_calls` list never drops or re-indexes an accumulated call, and adds at most one call per entry. |
| MessageUtils.AccumulateToolCall | dashscope/utils/message_utils.py:85-124 | An entry that is not a dict, or has no index, is ignored. An entry with a new index is appended as it is. An entry with a known index merges into that call, and every other call is unchanged. |
| MessageUtils.AccumulateLogprobs | dashscope/utils/message_utils.py:129-147 | A dict whose `content` is a non-empty list extends the accumulated list, and the outgoing `content` becomes that list. Anything else is skipped and changes nothing. |
| MessageUtils.AccumulateMessage | dashscope/utils/message_utils.py:40-127 | Content, reasoning and tool calls are each accumulated by their own rule. A non-empty `tool_calls` is replaced by all accumulated calls. Log-probabilities are untouched. |
| MessageUtils.AccumulateChoice | dashscope/utils/message_utils.py:40-147 | The message is accumulated when present. Log-probabilities are accumulated with or without a message. The index and other fields pass through. |
| MessageUtils.AccumulateChoices | dashscope/utils/message_utils.py:24-147 | The loop over choices emits one choice per incoming choice, with its index and other fields kept, and leaves state for every key it resolves. |
| MessageUtils.KeysOf | dashscope/utils/message_utils.py:24-29 | The set of keys a chunk's choices resolve to, position by position. |
| MessageUtils.AccumulateChunk | dashscope/utils/message_utils.py:6-147 | Text branch: choice 0's string grows by `output.text`, and the chunk carries the whole text. It fails exactly when that accumulator is a list. Otherwise the choices are accumulated in order, or the chunk passes through. |
| MessageUtils.PadParts | dashscope/utils/message_utils.py:53-54 | The padding loop keeps the old parts and appends '' up to the incoming length. |
| MessageUtils.MergeParts | dashscope/utils/message_utils.py:52-63 | The padding and merge loops compute exactly `AccumulateParts`. |
| MessageUtils.FindExistingCall | dashscope/utils/message_utils.py:89-95 | The search loop computes exactly `FindCall`. |
| MessageUtils.MergeToolCalls | dashscope/utils/message_utils.py:85-124 | The loop over tool-call entries computes `AccumulateToolCalls`. |
| MessageUtils.MergeChoice | dashscope/utils/message_utils.py:40-147 | The in-place updates of one choice compute exactly `AccumulateChoice`. |
| MessageUtils.MergeChoices | dashscope/utils/message_utils.py:24-147 | The loop over choices, which creates state for first-seen keys, computes exactly `AccumulateChoices`. |
| MessageUtils.MergeSingleResponse | dashscope/utils/message_utils.py:3-147 | The whole function computes exactly `AccumulateChunk`. |
| MessageStreams.Replay | dashscope/utils/message_utils.py:3-4 | Feeding n chunks to the accumulator emits n chunks. |
| MessageStreams.ReplaySnoc | dashscope/utils/message_utils.py:3-4 | One more chunk of a stream is one more call of the accumulator on the state left so far. |
| MessageStreams.ReplayPrefix | dashscope/utils/message_utils.py:3-4 | The accumulator is causal: the chunks emitted for a prefix of a stream are the prefix of those emitted for the whole stream. |
| MessageStreams.ChoicesKeepOtherKeys | dashscope/utils/message_utils.py:24-38 | The choice loop adds exactly the keys of this chunk's choices, removes none, and leaves every other entry unchanged. |
| MessageStreams.ChunkKeepsOtherKeys | dashscope/utils/message_utils.py:6-38 | One chunk adds exactly the keys it touches (0 for a text chunk), removes none, and leaves entries for untouched keys unchanged. |
| MessageStreams.ChoiceGrows | dashscope/utils/message_utils.py:40-147 | For one choice, reasoning and log-probabilities only gain a suffix, and tool calls never shrink. |
| MessageStreams.ChoicesGrow | dashscope/utils/message_utils.py:24-147 | The same holds for every existing entry across all choices of a chunk, including repeated keys. |
| MessageStreams.ChunkOnlyAppends | dashscope/utils/message_utils.py:6-147 | One chunk only appends to reasoning and log-probabilities and never drops a tool call. |
| MessageStreams.Indices | dashscope/utils/message_utils.py:86-95 | The index of each accumulated call, in order. |
| MessageStreams.FindCallNoneIff | dashscope/utils/message_utils.py:89-97 | The search finds nothing exactly when no accumulated call has that index. |
| MessageStreams.ToolCallOrder | dashscope/utils/message_utils.py:85-124 | The indices of the accumulated calls are the known ones, followed by each new index in first-appearance order. This is checked against an independent reference definition. |
| MessageStreams.FirstAppearancesDistinct | dashscope/utils/message_utils.py:86-124 | The first-appearance order has no repeated index and no call without one. |
| MessageStreams.ToolCallsStayDistinct | dashscope/utils/message_utils.py:85-124 | Distinct indices on every accumulated call are an invariant of tool-call accumulation. |
| MessageStreams.ToolCallsAppend | dashscope/utils/message_utils.py:85-124 | Accumulating two entry lists one after the other is accumulating their concatenation. |
| MessageStreams.TextStream | dashscope/utils/message_utils.py:6-20 | A plain-text stream leaves choice 0 with all fragments joined onto what it held before. |
| MessageStreams.TextLastEmitted | dashscope/utils/message_utils.py:18-19 | The chunk emitted for the last fragment carries the text so far. |
| MessageStreams.TextEmitted | dashscope/utils/message_utils.py:6-20 | Every text chunk with a non-empty fragment is rewritten to the text so far. A chunk with an empty fragment passes through untouched. |
| MessageStreams.HelloStream | dashscope/utils/message_utils.py:6-20 | "Hel" then "lo" emit "Hello" and leave "Hello" in choice 0. |
| MessageStreams.ContentStream | dashscope/utils/message_utils.py:64-70 | A stream of string fragments for choice k leaves their concatenation in that choice's accumulator. |
| MessageStreams.ContentLastEmitted | dashscope/utils/message_utils.py:64-70 | The last emitted chunk carries the content so far. |
| MessageStreams.ContentEmitted | dashscope/utils/message_utils.py:42-70 | After chunk i, the emitted content is the concatenation of the fragments so far. An empty fragment passes through. |
| MessageStreams.ArgumentsStream | dashscope/utils/message_utils.py:97-127 | The first `arguments` fragment creates call 0, and later ones are concatenated onto it. The state holds one call with all fragments joined, and so does the last chunk. |
| MessageStreams.ArgumentsEmitted | dashscope/utils/message_utils.py:110-127 | Every chunk of an arguments stream carries the arguments received so far. |
| MessageStreams.ArgumentsExample | dashscope/utils/message_utils.py:110-114 | `{"a":` then `1}` accumulate to `{"a":1}`. |
| TingWu.OptStr | dashscope/multimodal/tingwu/tingwu_realtime.py:510-511 | A `None` string is JSON null, any other is that string. |
| TingWu.StartParameters | dashscope/multimodal/tingwu/tingwu_realtime.py:354-375 | `format`, `sampleRate` and `maxEndSilence` are present exactly when their argument is not None or a keyword argument names them. The keyword arguments override them. `terminology` is present exactly when given. No other key appears. |
| TingWu.RequestBodyInput.ToDict | dashscope/multimodal/tingwu/tingwu_realtime.py:509-518 | `appId` (null when None) and `directive` are always present. `workspace_id` and `dataId` are present exactly when given, and no other key appears. |
| TingWu.DashHeader.ToDict | dashscope/multimodal/tingwu/tingwu_realtime.py:527-533 | Exactly `action`, `task_id`, `request_id` and `streaming`, with `request_id` equal to `task_id`. |
| TingWu.NewHeader | dashscope/multimodal/tingwu/tingwu_realtime.py:522-525 | The header's streaming mode defaults to "duplex". |
| TingWu.DashPayload.ToDict | dashscope/multimodal/tingwu/tingwu_realtime.py:545-559 | `task_group`, `function`, `model` and `task` are always present. `parameters` and `input` are present exactly when given, and no other key appears. |
| TingWu.NewPayload | dashscope/multimodal/tingwu/tingwu_realtime.py:428-432 | The payload takes the dataclass defaults "aigc", "generation" and "multimodal-generation", with the model, input and parameters the builder passes. |
| TingWu.PayloadInput | dashscope/multimodal/tingwu/tingwu_realtime.py:418-426 | A custom input replaces the built body input. Otherwise the input is built from the identifiers. |
| TingWu.StartRequest | dashscope/multimodal/tingwu/tingwu_realtime.py:337-351 | The start request runs the task (`run-task`), names it in `task_id` and `request_id`, and always carries the built `parameters`, the model and the body input. |
| TingWu.StopRequest | dashscope/multimodal/tingwu/tingwu_realtime.py:377-390 | The stop request finishes the task (`finish-task`), names it in `task_id` and `request_id`, and has no `parameters`. Its model is null and its input has only `appId` and `directive`. |
| TingWu.Request.constructor | dashscope/multimodal/tingwu/tingwu_realtime.py:283-293 | A new builder has no header, payload, task id, app id or workspace id. |
| TingWu.Request.GetDashRequestHeader | dashscope/multimodal/tingwu/tingwu_realtime.py:392-399 | The task id is drawn only when there is none. The header names the action and that task id. Nothing else changes. |
| TingWu.Request.GetDashRequestPayload | dashscope/multimodal/tingwu/tingwu_realtime.py:401-432 | The payload is built from the custom or built input and the request parameters. Nothing else changes. |
| TingWu.Request.GenerateStartRequest | dashscope/multimodal/tingwu/tingwu_realtime.py:310-351 | The task id is drawn only if there was none. The builder's header is then the run-task header and its payload the start payload. The command is those two, which is the start request for that task id. |
| TingWu.Request.GenerateStopRequest | dashscope/multimodal/tingwu/tingwu_realtime.py:377-390 | The builder's header is then the finish-task header and its payload the stop payload. The command is those two, which is the stop request for the builder's task id and its own `app_id`. |
| TingWu.StartThenStop | dashscope/multimodal/tingwu/tingwu_realtime.py:195-210 | A start then a stop on one fresh builder name the same task id, whatever id the stop would have drawn. The stop's `appId` is null. |
| TingWu.HeaderEvent | dashscope/multimodal/tingwu/tingwu_realtime.py:451 | A dictionary header yields its `event`, if any; any other value raises or yields nothing. |
| TingWu.AgentEvents | dashscope/multimodal/tingwu/tingwu_realtime.py:471-490 | At most two events, and a missing `payload` raises its own error. With a payload, "task-failed" yields only the error with the output's `errorCode` and `errorMessage`, and raises exactly when the output or one of them is missing. "speech-listen", "recognize-result" and "ai-result" forward the whole message. "speech-end" yields stopped, then a close request exactly when there is a close callback. Any other action, string or not, yields nothing. |
| TingWu.HandleText | dashscope/multimodal/tingwu/tingwu_realtime.py:442-470 | A message that is not JSON yields nothing and raises nothing. Any other message yields at most two events. |
| TingWu.TaskFailedHeader | dashscope/multimodal/tingwu/tingwu_realtime.py:451-456 | A "task-failed" header yields only an error with the header's code and message, or raises KeyError when one is missing. |
| TingWu.TaskStartedHeader | dashscope/multimodal/tingwu/tingwu_realtime.py:457-459 | A "task-started" header yields only a started event with the header's task id. |
| TingWu.StartedOnlyFromHeader | dashscope/multimodal/tingwu/tingwu_realtime.py:457-459 | A started event comes only from a "task-started" header, alone, and carries that header's task id. |
| TingWu.ActionDispatch | dashscope/multimodal/tingwu/tingwu_realtime.py:461-488 | With a plain header, a "task-failed" action yields only the error with the output's `errorCode` and `errorMessage`, or raises KeyError when one is missing. Each other action maps to its events, and "speech-end" triggers a close after stopped exactly when a close callback is set. Every other string action yields nothing and raises nothing. |
| TingWu.NoOutputNoEvents | dashscope/multimodal/tingwu/tingwu_realtime.py:461-462 | A payload with no output, or a null one, yields nothing. |
| TingWu.TingWuResponse.constructor | dashscope/multimodal/tingwu/tingwu_realtime.py:436-440 | A new response handler has no task id and keeps whether a close callback was given. |
| TingWu.TingWuResponse.HandleTextResponse | dashscope/multimodal/tingwu/tingwu_realtime.py:442-494 | The events are those of `HandleText`. The task id is recorded exactly when a started event is produced, and kept otherwise. |
| Values.Contains | dashscope/multimodal/tingwu/tingwu_realtime.py:451 | Python's `key in v`: key membership for a dict, element membership for a list, substring for a string, and TypeError exactly when `v` is none of these. |
| Values.GetItem | dashscope/multimodal/tingwu/tingwu_realtime.py:451 | Python's `v[key]`: succeeds exactly for a dict holding the key, raises KeyError exactly for a dict without it, and TypeError otherwise. |
| Http.InitialHeaders | dashscope/api_entities/http_request.py:62-82 | `Authorization` defaults to "Bearer " + key and `Accept` to JSON, and the base headers override them. Async is set exactly for async non-query requests. `Content-Type` is set exactly for POST. Streaming sets the SSE `Accept` and the two SSE headers. A base value for any of these keys that the constructor does not overwrite is kept as it is, as is every other base key. No other key appears. |
| Http.ReplaceAll | dashscope/api_entities/http_request.py:85 | Python's `str.replace`, left to right and never overlapping. Replacing by a string at least as long never shortens, and replacing a string that occurs by a longer one strictly lengthens, so a string holding an occurrence never comes back unchanged. Replacing a string by itself changes nothing, and a first character that cannot start a match is kept. |
| Http.ReplaceAbsent | dashscope/api_entities/http_request.py:85 | `str.replace` leaves a string without an occurrence unchanged. |
| Http.ToTaskApiNoBareApi | dashscope/api_entities/http_request.py:85 | After replacing "api" by "api-task", every "api" left in the URL starts an "api-task", so no occurrence escapes the rewrite. |
| Http.TaskApiRoundTrip | dashscope/api_entities/http_request.py:85 | Replacing "api" by "api-task" loses nothing: replacing "api-task" back by "api" restores the URL. |
| Http.TaskUrl | dashscope/api_entities/http_request.py:84-85 | Without a query, or without a non-empty task id, the URL is unchanged. |
| Http.TaskUrlShape | dashscope/api_entities/http_request.py:84-85 | A task-query URL ends with the task id. What precedes it has no bare "api" left, since every one is the head of an "api-task", and rewriting "api-task" back to "api" in it gives the base URL. A URL without "api" only gains the suffix. |
| Http.EffectiveTimeout | dashscope/api_entities/http_request.py:87 | A falsy timeout (None or 0) falls back to the default. Any other is kept. |
| Http.Member | dashscope/api_entities/http_request.py:275-278 | `msg[key] if key in msg else None` on a dictionary. |
| Http.NextRequestId | dashscope/api_entities/http_request.py:279-280 | The running request id changes only to the id of a dictionary message that has one. |
| Http.Convert | dashscope/api_entities/http_request.py:268-305 | One event. Undecodable data yields BAD_REQUEST with code 'Unknown' and the raw data as message. An error event yields its status, code and message, or None for each absent one. A success event yields its output and usage, or the message itself when flattened. Every record carries the running request id. |
| Http.Fold | dashscope/api_entities/http_request.py:263-305 | The event loop yields at most one record per event, and exactly one when no exception ends it. |
| Http.FoldStopsAtRaise | dashscope/api_entities/http_request.py:267-305 | An exception ends the generator: later events change nothing. |
| Http.FoldSnoc | dashscope/api_entities/http_request.py:267-305 | One more event is one more conversion, from the request id left so far. |
| Http.FoldPrefix | dashscope/api_entities/http_request.py:267-305 | The records yielded for a prefix of the stream are a prefix of the records. |
| Http.FoldRequestId | dashscope/api_entities/http_request.py:263-280 | The running request id is the one declared by the last event that has one, or '' when none has. |
| Http.FoldReplyAt | dashscope/api_entities/http_request.py:267-305 | Record i is the conversion of event i with the request id in force after the events before it. |
| Http.RepliesCarryRequestId | dashscope/api_entities/http_request.py:279-305 | Every response record carries the request id in force at its own event, including that event's own. |
| Http.TaskOnly | dashscope/api_entities/http_request.py:311-312 | `{'task_id': content['task_id']}`. |
| Http.JsonReply | dashscope/api_entities/http_request.py:306-325 | A dictionary body never raises. Its output is `output`, else `{'task_id': ...}`, else None. Its usage and request id come from the body. With flattened output the body itself is returned. |
| Http.ResponseBranch | dashscope/api_entities/http_request.py:264-327 | The event stream is read exactly for a 200 streamed response whose content type contains the SSE type. Failure handling applies exactly when the status is not 200. |
| Http.HttpRequest.constructor | dashscope/api_entities/http_request.py:46-87 | The successive assignments leave the headers `InitialHeaders`, the URL `TaskUrl`, the timeout `EffectiveTimeout`, and the flags as given. |
| Http.HttpRequest.AddHeader | dashscope/api_entities/http_request.py:131-132 | Exactly one key is set, and every other header and field is kept. |
| Http.HttpRequest.AddHeaders | dashscope/api_entities/http_request.py:134-135 | A map union in which the new headers win and every other key is unchanged. |
| Http.HttpRequest.HandleStream | dashscope/api_entities/http_request.py:263-305 | The loop over events yields exactly the records of `Fold`, and the exception that ended it, if any. |

## Left out

- The shape of the values. Chunks, state and requests are values, not mutable objects.
  - Every operation returns the new chunk and state instead of updating them in place.
  - Aliasing is not reproduced. In the source, the outgoing `tool_calls` and `logprobs.content` are the very lists held in state. A new tool call's `function` dict is shared with the incoming chunk.
  - Later mutation of an emitted chunk therefore has no counterpart here.
- Absent keys and null. `None` in a typed chunk field stands for both "key absent" and JSON null. The source treats the two alike except in the cases below.
  - The model does not catch the `TypeError` Python raises when a present `name` or `arguments` fragment is null.
  - A present `reasoning_content` is `Some` whatever its value: `MessageUtils.ReasoningField` maps a null or other falsy value to `Some("")`, which behaves like it in the source.
- MessageUtils.AccumulateChunk: a text chunk that reaches a list-shaped accumulator for choice 0 is `Failure(TextIntoParts)`. In Python, `list += str` splices the characters into the list and sets `output.text` to that list. That mixed shape is not modelled.
- MessageUtils.ChoiceKey: the `hasattr`/`in` probe on a choice is modelled as "the index is present".
  - A present but null `index` is modelled as absent.
  - A non-integer index is not representable.
- Tool-call matching. An accumulated call always has an integer index, so the source's `isinstance(acc_call, dict)` test and `if existing_call:` hold of every accumulated call. They are modelled as always true.
- A tool-call entry whose `index` is null is modelled as one without an index, and so it is ignored. Python would append it and merge later null-indexed entries into it.
- MessageUtils.Concat: a stored call whose `function.name` or `function.arguments` is null is treated like one without that key. Such a value is stored when the call's first entry carries it, for example `"arguments": null`. When a later fragment for that key arrives, the source runs `None += fragment` and raises TypeError (dashscope/utils/message_utils.py:105-114). The model concatenates from "" instead.
- MessageUtils.MergeFunction: builds on `MessageUtils.Concat`, so a stored null `name` or `arguments` is concatenated from "" where the source raises TypeError.
- MessageUtils.MergeCall: a stored call whose `function` is null is treated like one with no `function`. Such a call is stored when its first entry carries `"function": null`. When a later truthy `function` fragment arrives, the source raises TypeError (`'name' not in None`) or AttributeError (`None.update`). The model merges the fragment starting from an empty dict instead.
- Non-string text fields. These fields are typed `string`, so a JSON value of another type cannot be given to them: `output.text`, string `content`, a content part's `text`, and a tool call's `function.name` and `function.arguments`. For such a value the source's `+=` raises an uncaught TypeError, at dashscope/utils/message_utils.py:18 (`output.text`), :61 (a part's `text`), :69 (truthy content that is neither a list nor a string) and :108/:114 (`name`/`arguments`). The model has no such input and so no such failure. The members concerned are:
  - MessageUtils.AccumulateChunk: `output.text`;
  - MessageUtils.AccumulateContent: string content;
  - MessageUtils.AccumulateParts: a part's `text`;
  - MessageUtils.Concat: `name` and `arguments`.

  `reasoning_content` is the exception: `MessageUtils.ReasoningField` models its TypeError.
- A `function` dict is falsy exactly when it has no key. A non-dict `function` value is not representable.
- Floating point. `Values.Value` has no floats, and log-probability entries are opaque values.
- Transport and threads are not modelled:
  - TLS contexts, session pools, HTTP sends, aiohttp generators, `call`/`aio_call`;
  - the WebSocket connection, threads, polling and frame sending of the TingWu client.
- `_handle_http_failed_response` and multipart reading are not part of this model. `Http.ResponseBranch` only says when they apply.
- Foreign calls:
  - `uuid4` is a parameter (`uuid`, `startUuid`, `stopUuid`).
  - `json.dumps` and `json.loads` are not modelled. Requests are JSON trees, and a server message arrives parsed: `None` stands for text that fails to decode.
  - `get_websocket_header` builds a User-Agent from platform calls and is not modelled.
- `DashScopeAPIResponse` construction. The class is not part of this model.
  - A field the source does not pass is `None` in `Http.Reply`, and Python's default for it is not modelled.
  - HTTP status codes are plain integers.
- TingWu.KeywordsFree: the keyword arguments of `_get_start_parameters` cannot repeat one of its named parameters. Python raises a `TypeError` at such a call, and that call is not modelled.
- TingWu.Request.GetDashRequestPayload: `custom_input` is modelled as the dictionary its `to_dict` returns. No caller in the client passes one.
- TingWu.Request: `DashPayload`'s default model "" is never used, because the builder always passes `model` explicitly. A `None` model is therefore JSON null in both requests.
- TingWu.HandleText: the callback is assumed present. An error event stands for `on_error`, which the source skips when the callback is falsy.
  - Exceptions other than a JSON decoding error escape `handle_text_response`. The model returns them as `Failure`.
  - Logging is not modelled.
- `dashscope/aigc/video_synthesis.py`, `tests/http_task_request.py` and the two samples are not part of this model. They delegate to API classes not shown, or make network calls and print.
