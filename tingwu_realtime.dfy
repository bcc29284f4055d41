/**
 * The TingWu realtime protocol: the dictionaries the client sends to start
 * and stop a task (header, payload, body input, start parameters), the one
 * piece of request state (the task id, generated once and then reused), and
 * the dispatch of a server message to callback events.
 *
 * JSON text is not modelled: requests are built as parsed JSON trees, and a
 * server message arrives already parsed (`None` when it is not valid JSON).
 */
module TingWu {
  import opened Wrappers
  import opened Values

  /** The protocol actions a request header can carry. */
  const RunTask: string := "run-task"
  const FinishTask: string := "finish-task"

  /** A Python `str` argument that may be `None`, as a JSON value. */
  function OptStr(o: Option<string>): (v: Value)
    ensures o.None? <==> v == Null
    ensures o.Some? ==> v == Str(o.value)
  {
    match o
    case None => Null
    case Some(s) => Str(s)
  }

  // ---------------------------------------------------------------------
  // Start parameters
  // ---------------------------------------------------------------------

  /**
   * The keyword arguments of `_get_start_parameters` cannot repeat one of
   * its named parameters: Python rejects such a call before the body runs.
   */
  predicate KeywordsFree(kwargs: map<string, Value>) {
    "audio_format" !in kwargs && "sample_rate" !in kwargs &&
    "terminology" !in kwargs && "max_end_silence" !in kwargs
  }

  /**
   * The `parameters` of the start request: one key per argument that is
   * not `None`, then the extra keyword arguments, which win on a clash.
   */
  function StartParameters(audioFormat: Option<string>, sampleRate: Option<int>, terminology: Option<string>,
                           maxEndSilence: Option<int>, kwargs: map<string, Value>): (p: map<string, Value>)
    requires KeywordsFree(kwargs)
    ensures "format" in p <==> audioFormat.Some? || "format" in kwargs
    ensures "sampleRate" in p <==> sampleRate.Some? || "sampleRate" in kwargs
    ensures "maxEndSilence" in p <==> maxEndSilence.Some? || "maxEndSilence" in kwargs
    // the key equals a parameter's name, so no keyword argument can override it
    ensures "terminology" in p <==> terminology.Some?
    ensures terminology.Some? ==> p["terminology"] == Str(terminology.value)
    ensures audioFormat.Some? && "format" !in kwargs ==> p["format"] == Str(audioFormat.value)
    ensures sampleRate.Some? && "sampleRate" !in kwargs ==> p["sampleRate"] == Num(sampleRate.value)
    ensures maxEndSilence.Some? && "maxEndSilence" !in kwargs ==> p["maxEndSilence"] == Num(maxEndSilence.value)
    ensures forall k :: k in kwargs ==> k in p && p[k] == kwargs[k]
    ensures forall k :: k in p ==> k in kwargs || k in {"format", "sampleRate", "terminology", "maxEndSilence"}
  {
    var withFormat := if audioFormat.Some? then map["format" := Str(audioFormat.value)] else map[];
    var withRate := if sampleRate.Some? then withFormat["sampleRate" := Num(sampleRate.value)] else withFormat;
    var withTerms := if terminology.Some? then withRate["terminology" := Str(terminology.value)] else withRate;
    var withSilence := if maxEndSilence.Some? then withTerms["maxEndSilence" := Num(maxEndSilence.value)] else withTerms;
    withSilence + kwargs
  }

  // ---------------------------------------------------------------------
  // The three dataclasses and their to_dict
  // ---------------------------------------------------------------------

  /** The `input` of a payload built from the application's identifiers. */
  datatype RequestBodyInput = RequestBodyInput(appId: Option<string>, directive: string,
                                               dataId: Option<string>, workspaceId: Option<string>)
  {
    /** `appId` (null when absent) and `directive` always; the other two only when given. */
    function ToDict(): (d: map<string, Value>)
      ensures "appId" in d && d["appId"] == OptStr(appId)
      ensures "directive" in d && d["directive"] == Str(directive)
      ensures "workspace_id" in d <==> workspaceId.Some?
      ensures workspaceId.Some? ==> d["workspace_id"] == Str(workspaceId.value)
      ensures "dataId" in d <==> dataId.Some?
      ensures dataId.Some? ==> d["dataId"] == Str(dataId.value)
      ensures forall k :: k in d ==> k in {"appId", "directive", "workspace_id", "dataId"}
    {
      var base := map["appId" := OptStr(appId), "directive" := Str(directive)];
      var withWorkspace := if workspaceId.Some? then base["workspace_id" := Str(workspaceId.value)] else base;
      if dataId.Some? then withWorkspace["dataId" := Str(dataId.value)] else withWorkspace
    }
  }

  /** The protocol header of a request. */
  datatype DashHeader = DashHeader(action: string, taskId: string, streaming: string)
  {
    /** Exactly four keys, and the request id is the task id. */
    function ToDict(): (d: map<string, Value>)
      ensures d.Keys == {"action", "task_id", "request_id", "streaming"}
      ensures d["action"] == Str(action) && d["streaming"] == Str(streaming)
      ensures d["task_id"] == Str(taskId) && d["request_id"] == d["task_id"]
    {
      map["action" := Str(action), "task_id" := Str(taskId), "request_id" := Str(taskId),
          "streaming" := Str(streaming)]
    }
  }

  /** A header with the dataclass's default streaming mode. */
  function NewHeader(action: string, taskId: string): (h: DashHeader)
    ensures h.action == action && h.taskId == taskId && h.streaming == "duplex"
  {
    DashHeader(action, taskId, "duplex")
  }

  /** The protocol payload of a request; `model` is null when the caller passes `None`. */
  datatype DashPayload = DashPayload(taskGroup: string, func: string, model: Option<string>, task: string,
                                     parameters: Option<map<string, Value>>, input: Option<map<string, Value>>)
  {
    /** The four fixed keys always; `parameters` and `input` only when given. */
    function ToDict(): (d: map<string, Value>)
      ensures "task_group" in d && d["task_group"] == Str(taskGroup)
      ensures "function" in d && d["function"] == Str(func)
      ensures "model" in d && d["model"] == OptStr(model)
      ensures "task" in d && d["task"] == Str(task)
      ensures "parameters" in d <==> parameters.Some?
      ensures parameters.Some? ==> d["parameters"] == Obj(parameters.value)
      ensures "input" in d <==> input.Some?
      ensures input.Some? ==> d["input"] == Obj(input.value)
      ensures forall k :: k in d ==> k in {"task_group", "function", "model", "task", "parameters", "input"}
    {
      var base := map["task_group" := Str(taskGroup), "function" := Str(func), "model" := OptStr(model),
                      "task" := Str(task)];
      var withParameters := if parameters.Some? then base["parameters" := Obj(parameters.value)] else base;
      if input.Some? then withParameters["input" := Obj(input.value)] else withParameters
    }
  }

  /** A payload with the dataclass's defaults for the fields the client never passes. */
  function NewPayload(model: Option<string>, input: map<string, Value>, parameters: Option<map<string, Value>>): (p: DashPayload)
    ensures p.taskGroup == "aigc" && p.func == "generation" && p.task == "multimodal-generation"
    ensures p.model == model && p.input == Some(input) && p.parameters == parameters
  {
    DashPayload("aigc", "generation", model, "multimodal-generation", parameters, Some(input))
  }

  /**
   * The payload input: the caller's own input when one is given (as the
   * dictionary its `to_dict` returns), else one built from the identifiers.
   */
  function PayloadInput(directionName: string, appId: Option<string>, workspaceId: Option<string>,
                        customInput: Option<map<string, Value>>, dataId: Option<string>): (d: map<string, Value>)
    ensures customInput.Some? ==> d == customInput.value
    ensures customInput.None? ==> d == RequestBodyInput(appId, directionName, dataId, workspaceId).ToDict()
  {
    if customInput.Some? then customInput.value
    else RequestBodyInput(appId, directionName, dataId, workspaceId).ToDict()
  }

  // ---------------------------------------------------------------------
  // Whole requests
  // ---------------------------------------------------------------------

  /** The command object `{header, payload}` sent as one text frame. */
  function Command(header: map<string, Value>, payload: map<string, Value>): Value {
    Obj(map["header" := Obj(header), "payload" := Obj(payload)])
  }

  /**
   * The start request for task `taskId`: it runs the task, names it in both
   * `task_id` and `request_id`, and always carries `parameters`, even an
   * empty one.
   */
  function StartRequest(taskId: string, directionName: string, appId: Option<string>, model: Option<string>,
                        workspaceId: Option<string>, audioFormat: Option<string>, sampleRate: Option<int>,
                        terminology: Option<string>, maxEndSilence: Option<int>, dataId: Option<string>,
                        kwargs: map<string, Value>): (cmd: Value)
    requires KeywordsFree(kwargs)
    ensures HeaderField(cmd, "action") == Some(Str(RunTask))
    ensures HeaderField(cmd, "task_id") == Some(Str(taskId)) && HeaderField(cmd, "request_id") == Some(Str(taskId))
    ensures PayloadOf(cmd).Some?
    ensures "parameters" in PayloadOf(cmd).value && PayloadOf(cmd).value["parameters"] ==
              Obj(StartParameters(audioFormat, sampleRate, terminology, maxEndSilence, kwargs))
    ensures "model" in PayloadOf(cmd).value && PayloadOf(cmd).value["model"] == OptStr(model)
    ensures "input" in PayloadOf(cmd).value &&
            PayloadOf(cmd).value["input"] == Obj(RequestBodyInput(appId, directionName, dataId, workspaceId).ToDict())
  {
    var parameters := StartParameters(audioFormat, sampleRate, terminology, maxEndSilence, kwargs);
    var input := PayloadInput(directionName, appId, workspaceId, None, dataId);
    Command(NewHeader(RunTask, taskId).ToDict(), NewPayload(model, input, Some(parameters)).ToDict())
  }

  /**
   * The stop request for task `taskId`: it finishes the task, has no
   * `parameters` key, a null model, and an input with only `appId` and
   * `directive`.
   */
  function StopRequest(taskId: string, directionName: string, appId: Option<string>): (cmd: Value)
    ensures HeaderField(cmd, "action") == Some(Str(FinishTask))
    ensures HeaderField(cmd, "task_id") == Some(Str(taskId)) && HeaderField(cmd, "request_id") == Some(Str(taskId))
    ensures PayloadOf(cmd).Some? && "parameters" !in PayloadOf(cmd).value
    ensures "model" in PayloadOf(cmd).value && PayloadOf(cmd).value["model"] == Null
    ensures "input" in PayloadOf(cmd).value &&
            PayloadOf(cmd).value["input"] == Obj(map["appId" := OptStr(appId), "directive" := Str(directionName)])
  {
    var input := PayloadInput(directionName, appId, None, None, None);
    assert input == map["appId" := OptStr(appId), "directive" := Str(directionName)];
    Command(NewHeader(FinishTask, taskId).ToDict(), NewPayload(None, input, None).ToDict())
  }

  /** `cmd['header'][key]`, when there is one. */
  function HeaderField(cmd: Value, key: string): Option<Value> {
    if cmd.Obj? && "header" in cmd.fields && cmd.fields["header"].Obj? && key in cmd.fields["header"].fields
    then Some(cmd.fields["header"].fields[key]) else None
  }

  /** `cmd['payload']`, when it is a dictionary. */
  function PayloadOf(cmd: Value): Option<map<string, Value>> {
    if cmd.Obj? && "payload" in cmd.fields && cmd.fields["payload"].Obj?
    then Some(cmd.fields["payload"].fields) else None
  }

  // ---------------------------------------------------------------------
  // The request builder and its task id
  // ---------------------------------------------------------------------

  /**
   * The request builder of one client. `uuid` stands for the random
   * identifier the source draws when it needs a task id.
   */
  class Request {
    var header: Option<map<string, Value>>
    var payload: Option<map<string, Value>>
    var taskId: Option<string>
    var appId: Option<string>
    var workspaceId: Option<string>

    constructor()
      ensures header.None? && payload.None? && taskId.None? && appId.None? && workspaceId.None?
    {
      header := None;
      payload := None;
      taskId := None;
      appId := None;
      workspaceId := None;
    }

    /** The task id is drawn once, then every header reuses it. */
    method GetDashRequestHeader(action: string, uuid: string)
      modifies this
      ensures taskId == (if old(taskId).None? then Some(uuid) else old(taskId))
      ensures header == Some(NewHeader(action, taskId.value).ToDict())
      ensures payload == old(payload) && appId == old(appId) && workspaceId == old(workspaceId)
    {
      if taskId.None? {
        taskId := Some(uuid);
      }
      header := Some(NewHeader(action, taskId.value).ToDict());
    }

    method GetDashRequestPayload(directionName: string, appId': Option<string>, workspaceId': Option<string>,
                                 customInput: Option<map<string, Value>>, model: Option<string>,
                                 dataId: Option<string>, requestParams: Option<map<string, Value>>)
      modifies this
      ensures payload == Some(NewPayload(model, PayloadInput(directionName, appId', workspaceId', customInput, dataId),
                                         requestParams).ToDict())
      ensures header == old(header) && taskId == old(taskId) && appId == old(appId) && workspaceId == old(workspaceId)
    {
      var input: map<string, Value>;
      if customInput.Some? {
        input := customInput.value;
      } else {
        input := RequestBodyInput(appId', directionName, dataId, workspaceId').ToDict();
      }
      payload := Some(NewPayload(model, input, requestParams).ToDict());
    }

    method GenerateStartRequest(directionName: string, appId': Option<string>, model: Option<string>,
                                workspaceId': Option<string>, audioFormat: Option<string>, sampleRate: Option<int>,
                                terminology: Option<string>, maxEndSilence: Option<int>, dataId: Option<string>,
                                kwargs: map<string, Value>, uuid: string) returns (cmd: Value)
      requires KeywordsFree(kwargs)
      modifies this
      ensures taskId == (if old(taskId).None? then Some(uuid) else old(taskId))
      ensures header == Some(NewHeader(RunTask, taskId.value).ToDict())
      ensures payload == Some(NewPayload(model, PayloadInput(directionName, appId', workspaceId', None, dataId),
                                         Some(StartParameters(audioFormat, sampleRate, terminology, maxEndSilence, kwargs))).ToDict())
      ensures cmd == Command(header.value, payload.value)
      ensures cmd == StartRequest(taskId.value, directionName, appId', model, workspaceId', audioFormat, sampleRate,
                                  terminology, maxEndSilence, dataId, kwargs)
      ensures appId == old(appId) && workspaceId == old(workspaceId)
    {
      GetDashRequestHeader(RunTask, uuid);
      var parameters := StartParameters(audioFormat, sampleRate, terminology, maxEndSilence, kwargs);
      GetDashRequestPayload(directionName, appId', workspaceId', None, model, dataId, Some(parameters));
      cmd := Command(header.value, payload.value);
    }

    /** The stop request names the builder's own `appId`, which nothing in the client sets. */
    method GenerateStopRequest(directionName: string, uuid: string) returns (cmd: Value)
      modifies this
      ensures taskId == (if old(taskId).None? then Some(uuid) else old(taskId))
      ensures header == Some(NewHeader(FinishTask, taskId.value).ToDict())
      ensures payload == Some(NewPayload(None, PayloadInput(directionName, appId, None, None, None), None).ToDict())
      ensures cmd == Command(header.value, payload.value)
      ensures cmd == StopRequest(taskId.value, directionName, appId)
      ensures appId == old(appId) && workspaceId == old(workspaceId)
    {
      GetDashRequestHeader(FinishTask, uuid);
      GetDashRequestPayload(directionName, appId, None, None, None, None, None);
      cmd := Command(header.value, payload.value);
    }
  }

  /**
   * A client's start then stop on one fresh builder: both requests name the
   * task id drawn for the start, whatever the stop would have drawn, and the
   * stop request's `appId` is null.
   */
  method StartThenStop(appId: Option<string>, model: Option<string>, workspaceId: Option<string>,
                       audioFormat: Option<string>, sampleRate: Option<int>, terminology: Option<string>,
                       maxEndSilence: Option<int>, dataId: Option<string>, kwargs: map<string, Value>,
                       startUuid: string, stopUuid: string) returns (start: Value, stop: Value)
    requires KeywordsFree(kwargs)
    ensures HeaderField(start, "task_id") == Some(Str(startUuid))
    ensures HeaderField(stop, "task_id") == Some(Str(startUuid))
    ensures start == StartRequest(startUuid, "start", appId, model, workspaceId, audioFormat, sampleRate,
                                  terminology, maxEndSilence, dataId, kwargs)
    ensures stop == StopRequest(startUuid, "stop", None)
  {
    var request := new Request();
    start := request.GenerateStartRequest("start", appId, model, workspaceId, audioFormat, sampleRate,
                                          terminology, maxEndSilence, dataId, kwargs, startUuid);
    stop := request.GenerateStopRequest("stop", stopUuid);
  }

  // ---------------------------------------------------------------------
  // Response dispatch
  // ---------------------------------------------------------------------

  /** The callbacks a server message triggers, in order. */
  datatype Event =
    | Error(code: Value, message: Value)
    | Started(taskId: Value)
    | SpeechListen(response: Value)
    | RecognizeResult(response: Value)
    | AiResult(response: Value)
    | Stopped
    | CloseRequested

  /** `header['event']` when `'event' in header`, else None. */
  function HeaderEvent(header: Value): (r: Result<Option<Value>, Exc>)
    ensures header.Obj? ==> r == Success(Lookup(header.fields, "event"))
    ensures r.Success? && r.value.Some? ==> header.Obj?
  {
    var present :- Contains(header, "event");
    if present then
      var event :- GetItem(header, "event");
      Success(Some(event))
    else Success(None)
  }

  /** The action handler: a failure, a result to forward, the end of speech, or nothing. */
  function AgentEvents(action: Value, response: Value, hasCloseCallback: bool): (r: Result<seq<Event>, Exc>)
    ensures r.Success? ==> |r.value| <= 2
    ensures r.Success? && |r.value| == 2 ==> r.value == [Stopped, CloseRequested] && hasCloseCallback
    ensures r.Success? && Stopped in r.value ==> r.value[0] == Stopped
    // what the three result kinds forward is the whole parsed message
    ensures r.Success? && |r.value| == 1 && (r.value[0].SpeechListen? || r.value[0].RecognizeResult? || r.value[0].AiResult?) ==>
              r.value[0].response == response
    ensures !action.Str? && GetItem(response, "payload").Success? ==> r == Success([])
    // with a payload present, each action string maps to its events
    ensures GetItem(response, "payload").Success? ==>
              (action == Str("task-failed") ==>
                 var payload := GetItem(response, "payload").value;
                 var failed := payload.Obj? && "output" in payload.fields && payload.fields["output"].Obj? &&
                               "errorCode" in payload.fields["output"].fields &&
                               "errorMessage" in payload.fields["output"].fields;
                 (r.Success? <==> failed) &&
                 (failed ==> r.value == [Error(payload.fields["output"].fields["errorCode"],
                                              payload.fields["output"].fields["errorMessage"])])) &&
              (action == Str("speech-listen") ==> r == Success([SpeechListen(response)])) &&
              (action == Str("recognize-result") ==> r == Success([RecognizeResult(response)])) &&
              (action == Str("ai-result") ==> r == Success([AiResult(response)])) &&
              (action == Str("speech-end") ==>
                 r == Success([Stopped] + (if hasCloseCallback then [CloseRequested] else []))) &&
              (action.Str? && action.s !in {"task-failed", "speech-listen", "recognize-result", "ai-result", "speech-end"} ==>
                 r == Success([]))
    ensures GetItem(response, "payload").Failure? ==> r == Failure(GetItem(response, "payload").error)
  {
    var payload :- GetItem(response, "payload");
    if action == Str("task-failed") then
      var output :- GetItem(payload, "output");
      var code :- GetItem(output, "errorCode");
      var message :- GetItem(output, "errorMessage");
      Success([Error(code, message)])
    else if action == Str("speech-listen") then Success([SpeechListen(response)])
    else if action == Str("recognize-result") then Success([RecognizeResult(response)])
    else if action == Str("ai-result") then Success([AiResult(response)])
    else if action == Str("speech-end") then
      Success([Stopped] + (if hasCloseCallback then [CloseRequested] else []))
    else Success([])
  }

  /**
   * One text message from the server. `None` is a message that is not
   * valid JSON: the decoding error is caught and logged. Any other error
   * (a missing key, indexing a non-dictionary) escapes as an exception.
   */
  function HandleText(parsed: Option<Value>, hasCloseCallback: bool): (r: Result<seq<Event>, Exc>)
    ensures parsed.None? ==> r == Success([])
    ensures r.Success? ==> |r.value| <= 2
  {
    match parsed
    case None => Success([])
    case Some(json) =>
      var header :- GetItem(json, "header");
      var event :- HeaderEvent(header);
      if event == Some(Str("task-failed")) then
        var code :- GetItem(header, "error_code");
        var message :- GetItem(header, "error_message");
        Success([Error(code, message)])
      else if event == Some(Str("task-started")) then
        var taskId :- GetItem(header, "task_id");
        Success([Started(taskId)])
      else
        var payload :- GetItem(json, "payload");
        var hasOutput :- Contains(payload, "output");
        if !hasOutput then Success([])
        else
          var output :- GetItem(payload, "output");
          if output == Null then Success([])
          else
            var action :- GetItem(output, "action");
            AgentEvents(action, json, hasCloseCallback)
  }

  /** `json['header']`, when `json` is a dictionary that has one. */
  function HeaderOf(json: Value): Option<Value> {
    if json.Obj? && "header" in json.fields then Some(json.fields["header"]) else None
  }

  /** The header is a dictionary whose `event` is `name`. */
  predicate HeaderEventIs(json: Value, name: string) {
    HeaderOf(json).Some? && HeaderOf(json).value.Obj? && "event" in HeaderOf(json).value.fields &&
    HeaderOf(json).value.fields["event"] == Str(name)
  }

  /**
   * A "task-failed" header yields only the error, with the header's code
   * and message, and the header's keys are the only ones read.
   */
  lemma TaskFailedHeader(json: Value, hasCloseCallback: bool)
    requires HeaderEventIs(json, "task-failed")
    ensures var h := HeaderOf(json).value.fields;
            HandleText(Some(json), hasCloseCallback) ==
              if "error_code" in h && "error_message" in h then Success([Error(h["error_code"], h["error_message"])])
              else Failure(KeyError)
  {
  }

  /** A "task-started" header yields only the started event, with the header's task id. */
  lemma TaskStartedHeader(json: Value, hasCloseCallback: bool)
    requires HeaderEventIs(json, "task-started")
    ensures var h := HeaderOf(json).value.fields;
            HandleText(Some(json), hasCloseCallback) ==
              if "task_id" in h then Success([Started(h["task_id"])]) else Failure(KeyError)
  {
  }

  /**
   * A started event comes from a "task-started" header and never with
   * another event; it carries the header's task id.
   */
  lemma StartedOnlyFromHeader(parsed: Option<Value>, hasCloseCallback: bool, t: Value)
    requires HandleText(parsed, hasCloseCallback).Success?
    requires Started(t) in HandleText(parsed, hasCloseCallback).value
    ensures parsed.Some? && HeaderEventIs(parsed.value, "task-started")
    ensures HandleText(parsed, hasCloseCallback).value == [Started(t)]
    ensures t == HeaderOf(parsed.value).value.fields["task_id"]
  {
    var json := parsed.value;
    var header := GetItem(json, "header").value;
    assert HeaderEvent(header).Success?;
  }

  /** The action a message without a started or failed header dispatches on. */
  predicate HasAction(json: Value, action: Value) {
    json.Obj? && "payload" in json.fields && json.fields["payload"].Obj? &&
    "output" in json.fields["payload"].fields && json.fields["payload"].fields["output"].Obj? &&
    "action" in json.fields["payload"].fields["output"].fields &&
    json.fields["payload"].fields["output"].fields["action"] == action
  }

  /** The header is a dictionary that names neither a failure nor a start. */
  predicate PlainHeader(json: Value) {
    HeaderOf(json).Some? && HeaderOf(json).value.Obj? &&
    !HeaderEventIs(json, "task-failed") && !HeaderEventIs(json, "task-started")
  }

  /**
   * With a plain header, the events are those of the payload's action. A
   * "task-failed" action yields only the error with the output's code and
   * message, or raises KeyError when one is missing. The three result kinds
   * forward the whole message. "speech-end" stops and then asks for the
   * close exactly when a close callback is set. Any other string yields no
   * event and raises nothing.
   */
  lemma ActionDispatch(json: Value, a: string, hasCloseCallback: bool)
    requires PlainHeader(json) && HasAction(json, Str(a))
    ensures var r := HandleText(Some(json), hasCloseCallback);
            var o := json.fields["payload"].fields["output"].fields;
            (a == "task-failed" ==>
               r == if "errorCode" in o && "errorMessage" in o then Success([Error(o["errorCode"], o["errorMessage"])])
                    else Failure(KeyError)) &&
            (a != "task-failed" ==> r.Success?) &&
            (a == "speech-listen" ==> r.value == [SpeechListen(json)]) &&
            (a == "recognize-result" ==> r.value == [RecognizeResult(json)]) &&
            (a == "ai-result" ==> r.value == [AiResult(json)]) &&
            (a == "speech-end" ==> r.value == [Stopped] + (if hasCloseCallback then [CloseRequested] else [])) &&
            (a !in {"task-failed", "speech-listen", "recognize-result", "ai-result", "speech-end"} ==> r.value == [])
  {
  }

  /** A message whose payload has no output, or a null one, triggers nothing. */
  lemma NoOutputNoEvents(json: Value, hasCloseCallback: bool)
    requires PlainHeader(json)
    requires json.Obj? && "payload" in json.fields && json.fields["payload"].Obj?
    requires var p := json.fields["payload"].fields; "output" !in p || p["output"] == Null
    ensures HandleText(Some(json), hasCloseCallback) == Success([])
  {
  }

  /** The response side: the task id a started event reports is recorded. */
  class TingWuResponse {
    var taskId: Option<Value>
    const hasCloseCallback: bool

    constructor(hasCloseCallback: bool)
      ensures taskId.None? && this.hasCloseCallback == hasCloseCallback
    {
      taskId := None;
      this.hasCloseCallback := hasCloseCallback;
    }

    method HandleTextResponse(parsed: Option<Value>) returns (r: Result<seq<Event>, Exc>)
      modifies this
      ensures r == HandleText(parsed, hasCloseCallback)
      ensures r.Success? && |r.value| == 1 && r.value[0].Started? ==> taskId == Some(r.value[0].taskId)
      ensures !(r.Success? && |r.value| == 1 && r.value[0].Started?) ==> taskId == old(taskId)
    {
      r := HandleText(parsed, hasCloseCallback);
      if r.Success? && |r.value| == 1 && r.value[0].Started? {
        taskId := Some(r.value[0].taskId);
      }
    }
  }
}
