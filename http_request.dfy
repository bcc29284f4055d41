/**
 * An HTTP request to the service: the headers, URL and timeout its
 * constructor sets up, header updates, and the conversion of a response
 * (a stream of server-sent events, or one JSON body) into response records
 * that carry the request id along.
 *
 * The transport is not modelled: events arrive already split and decoded
 * (`decoded` is `None` when the event's data is not valid JSON), and the
 * SDK's constants and the base-class headers are parameters.
 */
module Http {
  import opened Wrappers
  import opened Values

  /** The SDK's constants: the SSE content type, the POST method name, the default timeout. */
  datatype Constants = Constants(sseContentType: string, post: string, defaultTimeout: int)

  /** The HTTP status codes the conversion produces itself. */
  const StatusOk: int := 200
  const StatusBadRequest: int := 400

  // ---------------------------------------------------------------------
  // Headers
  // ---------------------------------------------------------------------

  /** The keys the constructor writes besides those of the base headers. */
  const OwnHeaderKeys: set<string> :=
    {"Accept", "Authorization", "X-DashScope-Async", "Content-Type", "X-Accel-Buffering", "X-DashScope-SSE"}

  /**
   * The initial headers: Accept and Authorization, then the base headers
   * over them, then the async, content-type and streaming headers over all.
   */
  function InitialHeaders(c: Constants, base: map<string, string>, apiKey: string, httpMethod: string,
                          stream: bool, asyncRequest: bool, query: bool): (h: map<string, string>)
    ensures "Authorization" in h &&
            h["Authorization"] == (if "Authorization" in base then base["Authorization"] else "Bearer " + apiKey)
    ensures "Accept" in h &&
            h["Accept"] == (if stream then c.sseContentType
                            else if "Accept" in base then base["Accept"] else "application/json")
    ensures "X-DashScope-Async" in h <==> (asyncRequest && !query) || "X-DashScope-Async" in base
    ensures asyncRequest && !query ==> h["X-DashScope-Async"] == "enable"
    ensures "Content-Type" in h <==> httpMethod == c.post || "Content-Type" in base
    ensures httpMethod == c.post ==> h["Content-Type"] == "application/json"
    ensures "X-Accel-Buffering" in h <==> stream || "X-Accel-Buffering" in base
    ensures "X-DashScope-SSE" in h <==> stream || "X-DashScope-SSE" in base
    ensures stream ==> h["X-Accel-Buffering"] == "no" && h["X-DashScope-SSE"] == "enable"
    // a base value the constructor does not overwrite is kept as it is
    ensures !(asyncRequest && !query) && "X-DashScope-Async" in base ==>
              h["X-DashScope-Async"] == base["X-DashScope-Async"]
    ensures httpMethod != c.post && "Content-Type" in base ==> h["Content-Type"] == base["Content-Type"]
    ensures !stream && "X-Accel-Buffering" in base ==> h["X-Accel-Buffering"] == base["X-Accel-Buffering"]
    ensures !stream && "X-DashScope-SSE" in base ==> h["X-DashScope-SSE"] == base["X-DashScope-SSE"]
    ensures forall k :: k in base && k !in OwnHeaderKeys ==> k in h && h[k] == base[k]
    ensures forall k :: k in h ==> k in base || k in OwnHeaderKeys
  {
    var merged := map["Accept" := "application/json", "Authorization" := "Bearer " + apiKey] + base;
    var withAsync := if asyncRequest && !query then merged["X-DashScope-Async" := "enable"] else merged;
    var withType := if httpMethod == c.post then withAsync["Content-Type" := "application/json"] else withAsync;
    if stream then
      withType + map["Accept" := c.sseContentType, "X-Accel-Buffering" := "no", "X-DashScope-SSE" := "enable"]
    else withType
  }

  // ---------------------------------------------------------------------
  // The task-query URL
  // ---------------------------------------------------------------------

  /** Python's `s.replace(from, to)`: every occurrence, left to right, none overlapping. */
  function ReplaceAll(s: string, from: string, to: string): (r: string)
    requires |from| > 0
    ensures |from| <= |to| ==> |s| <= |r|
    ensures |from| < |to| && HasSubstring(s, from) ==> |s| < |r|
    ensures from == to ==> r == s
    ensures |s| > 0 && |r| > 0 && s[0] != from[0] ==> r[0] == s[0]
    decreases |s|
  {
    if |s| < |from| then s
    else if s[..|from|] == from then to + ReplaceAll(s[|from|..], from, to)
    else [s[0]] + ReplaceAll(s[1..], from, to)
  }

  /** A string without an occurrence is left as it is. */
  lemma {:induction false} ReplaceAbsent(s: string, from: string, to: string)
    requires |from| > 0
    requires !HasSubstring(s, from)
    ensures ReplaceAll(s, from, to) == s
    decreases |s|
  {
    if |s| < |from| {
    } else if s[..|from|] == from {
      assert false;
    } else {
      ReplaceAbsent(s[1..], from, to);
    }
  }

  /** The rewrite of a task query: "api" becomes "api-task". */
  function ToTaskApi(s: string): string {
    ReplaceAll(s, "api", "api-task")
  }

  function FromTaskApi(s: string): string {
    ReplaceAll(s, "api-task", "api")
  }

  /** The rewrite keeps the first character and never shortens. */
  lemma {:induction false} ToTaskApiHead(s: string)
    ensures |ToTaskApi(s)| >= |s|
    ensures |s| > 0 ==> ToTaskApi(s)[0] == s[0]
    decreases |s|
  {
    if |s| < 3 {
    } else if s[..3] == "api" {
      ToTaskApiHead(s[3..]);
    } else {
      ToTaskApiHead(s[1..]);
    }
  }

  /** The rewrite keeps the first three characters. */
  lemma ToTaskApiPrefix(s: string)
    requires |s| >= 3
    ensures |ToTaskApi(s)| >= 3 && ToTaskApi(s)[..3] == s[..3]
  {
    var r := ToTaskApi(s);
    if s[..3] != "api" {
      var u := s[1..];
      assert r == [s[0]] + ToTaskApi(u);
      ToTaskApiHead(u);
      if |u| < 3 {
        assert ToTaskApi(u) == u;
      } else if u[..3] == "api" {
        assert ToTaskApi(u)[..2] == "ap" == u[..2];
      } else {
        assert ToTaskApi(u) == [u[0]] + ToTaskApi(u[1..]);
        ToTaskApiHead(u[1..]);
      }
      assert r[..3] == [s[0], u[0], u[1]];
    }
  }

  /** The rewrite loses nothing: turning every "api-task" back into "api" restores the URL. */
  lemma {:induction false} TaskApiRoundTrip(s: string)
    ensures FromTaskApi(ToTaskApi(s)) == s
    decreases |s|
  {
    if |s| < 3 {
      assert ToTaskApi(s) == s;
    } else if s[..3] == "api" {
      TaskApiRoundTrip(s[3..]);
      var r := ToTaskApi(s);
      assert r == "api-task" + ToTaskApi(s[3..]);
      assert r[..8] == "api-task" && r[8..] == ToTaskApi(s[3..]);
      assert s == "api" + s[3..];
    } else {
      var u := s[1..];
      TaskApiRoundTrip(u);
      ToTaskApiHead(u);
      ToTaskApiHead(u[1..]);
      var r := ToTaskApi(s);
      assert r == [s[0]] + ToTaskApi(u);
      if |r| < 8 {
        assert FromTaskApi(ToTaskApi(u)) == ToTaskApi(u);
      } else {
        ToTaskApiPrefix(s);
        assert r[..8] != "api-task" by { assert r[..8][..3] == r[..3]; }
        assert r[1..] == ToTaskApi(u);
      }
      assert s == [s[0]] + u;
    }
  }

  /** An "api" starts at position `i` of `r`. */
  predicate ApiAt(r: string, i: int) {
    0 <= i && i + 3 <= |r| && r[i] == 'a' && r[i + 1] == 'p' && r[i + 2] == 'i'
  }

  /** An "api-task" starts at position `i` of `r`. */
  predicate TaskApiAt(r: string, i: int) {
    0 <= i && i + 8 <= |r| && r[i..i + 8] == "api-task"
  }

  /** Every "api" in `r` is the head of an "api-task". */
  ghost predicate NoBareApi(r: string) {
    forall i | 0 <= i < |r| :: ApiAt(r, i) ==> TaskApiAt(r, i)
  }

  /** An "api-task" put in front keeps every "api" covered. */
  lemma NoBareApiAfterTask(t: string)
    requires NoBareApi(t)
    ensures NoBareApi("api-task" + t)
  {
    var r := "api-task" + t;
    forall i | 0 <= i < |r| && ApiAt(r, i)
      ensures TaskApiAt(r, i)
    {
      if i == 0 {
        assert r[..8] == "api-task";
      } else if i < 8 {
        assert false;
      } else {
        assert ApiAt(t, i - 8);
        assert r[i..i + 8] == t[i - 8..i];
      }
    }
  }

  /** A character put in front that does not start an "api" keeps every "api" covered. */
  lemma NoBareApiAfterChar(c: char, t: string)
    requires NoBareApi(t)
    requires !ApiAt([c] + t, 0)
    ensures NoBareApi([c] + t)
  {
    var r := [c] + t;
    forall i | 0 < i < |r| && ApiAt(r, i)
      ensures TaskApiAt(r, i)
    {
      assert ApiAt(t, i - 1);
      assert r[i..i + 8] == t[i - 1..i + 7];
    }
  }

  /** The rewrite leaves no bare "api": each one has become "api-task". */
  lemma {:induction false} ToTaskApiNoBareApi(s: string)
    ensures NoBareApi(ToTaskApi(s))
    decreases |s|
  {
    var r := ToTaskApi(s);
    if |s| < 3 {
      assert r == s;
    } else if s[..3] == "api" {
      ToTaskApiNoBareApi(s[3..]);
      assert r == "api-task" + ToTaskApi(s[3..]);
      NoBareApiAfterTask(ToTaskApi(s[3..]));
    } else {
      ToTaskApiNoBareApi(s[1..]);
      assert r == [s[0]] + ToTaskApi(s[1..]);
      ToTaskApiPrefix(s);
      NoBareApiAfterChar(s[0], ToTaskApi(s[1..]));
    }
  }

  /** The URL of a request: rewritten and suffixed with the task id only for a query with one. */
  function TaskUrl(url: string, query: bool, taskId: Option<string>): (r: string)
    ensures !(query && taskId.Some? && taskId.value != "") ==> r == url
  {
    if query && taskId.Some? && taskId.value != "" then ToTaskApi(url) + taskId.value else url
  }

  /**
   * A task-query URL ends with the task id, and what precedes it is the
   * base URL with "api" rewritten; a URL without "api" gets only the suffix.
   */
  lemma TaskUrlShape(url: string, taskId: string)
    requires taskId != ""
    ensures var r := TaskUrl(url, true, Some(taskId));
            |r| >= |taskId| && r[|r| - |taskId|..] == taskId &&
            FromTaskApi(r[..|r| - |taskId|]) == url
    ensures var r := TaskUrl(url, true, Some(taskId));
            NoBareApi(r[..|r| - |taskId|])
    ensures !HasSubstring(url, "api") ==> TaskUrl(url, true, Some(taskId)) == url + taskId
  {
    var r := TaskUrl(url, true, Some(taskId));
    assert r[..|r| - |taskId|] == ToTaskApi(url);
    TaskApiRoundTrip(url);
    ToTaskApiNoBareApi(url);
    if !HasSubstring(url, "api") {
      ReplaceAbsent(url, "api", "api-task");
    }
  }

  /** `timeout or DEFAULT_REQUEST_TIMEOUT_SECONDS`: `None` and 0 fall back to the default. */
  function EffectiveTimeout(c: Constants, timeout: Option<int>): (t: int)
    ensures timeout.Some? && timeout.value != 0 ==> t == timeout.value
    ensures timeout.None? || timeout.value == 0 ==> t == c.defaultTimeout
  {
    if timeout.Some? && timeout.value != 0 then timeout.value else c.defaultTimeout
  }

  // ---------------------------------------------------------------------
  // Converting a response
  // ---------------------------------------------------------------------

  /** One server-sent event as the stream reader hands it over. */
  datatype SseEvent = SseEvent(isError: bool, statusCode: int, data: string, decoded: Option<Value>)

  /**
   * What the conversion yields: a response record, or with flattened output
   * the decoded message itself. `usage`, `code` and `message` are `None`
   * where the record is built without them (their defaults are not part of
   * this model) and `Some(Null)` where `None` is passed explicitly.
   */
  datatype Reply =
    | ApiResponse(requestId: Value, statusCode: int, output: Value, usage: Option<Value>,
                  code: Option<Value>, message: Option<Value>)
    | Raw(msg: Value)

  /** `msg[key] if key in msg else None`. */
  function Member(msg: Value, key: string): (r: Result<Value, Exc>)
    ensures msg.Obj? ==> r == Success(if key in msg.fields then msg.fields[key] else Null)
  {
    var present :- Contains(msg, key);
    if present then GetItem(msg, key) else Success(Null)
  }

  /** The running request id after a message: its own when it has one. */
  function NextRequestId(msg: Value, requestId: Value): (r: Result<Value, Exc>)
    ensures msg.Obj? ==> r == Success(if "request_id" in msg.fields then msg.fields["request_id"] else requestId)
    ensures r.Success? && r.value != requestId ==> msg.Obj? && "request_id" in msg.fields
  {
    var present :- Contains(msg, "request_id");
    if present then GetItem(msg, "request_id") else Success(requestId)
  }

  /** One event: the record it yields and the request id carried to the next. */
  function Convert(e: SseEvent, requestId: Value, flattened: bool): (r: Result<(Reply, Value), Exc>)
    // an undecodable event: a bad request with the raw data, the request id unchanged
    ensures e.decoded.None? ==>
              r == Success((ApiResponse(requestId, StatusBadRequest, Null, None, Some(Str("Unknown")), Some(Str(e.data))),
                            requestId))
    // a dictionary never raises; its own request id, if any, replaces the running one
    ensures e.decoded.Some? && e.decoded.value.Obj? ==>
              var f := e.decoded.value.fields;
              r.Success? && r.value.1 == (if "request_id" in f then f["request_id"] else requestId)
    ensures e.decoded.Some? && e.decoded.value.Obj? && e.isError ==>
              var f := e.decoded.value.fields;
              r.value.0 == ApiResponse(r.value.1, e.statusCode, Null, None,
                                       Some(if "code" in f then f["code"] else Null),
                                       Some(if "message" in f then f["message"] else Null))
    ensures e.decoded.Some? && e.decoded.value.Obj? && !e.isError && !flattened ==>
              var f := e.decoded.value.fields;
              r.value.0 == ApiResponse(r.value.1, StatusOk, if "output" in f then f["output"] else Null,
                                       Some(if "usage" in f then f["usage"] else Null), None, None)
    ensures e.decoded.Some? && !e.isError && flattened && r.Success? ==> r.value.0 == Raw(e.decoded.value)
    ensures r.Success? && r.value.0.ApiResponse? ==> r.value.0.requestId == r.value.1
    ensures r.Success? && r.value.1 != requestId ==>
              e.decoded.Some? && e.decoded.value.Obj? && "request_id" in e.decoded.value.fields &&
              r.value.1 == e.decoded.value.fields["request_id"]
  {
    match e.decoded
    case None =>
      Success((ApiResponse(requestId, StatusBadRequest, Null, None, Some(Str("Unknown")), Some(Str(e.data))), requestId))
    case Some(msg) =>
      var output :- if e.isError then Success(Null) else Member(msg, "output");
      var usage :- if e.isError then Success(Null) else Member(msg, "usage");
      var id :- NextRequestId(msg, requestId);
      if e.isError then
        var code :- Member(msg, "code");
        var message :- Member(msg, "message");
        Success((ApiResponse(id, e.statusCode, Null, None, Some(code), Some(message)), id))
      else if flattened then Success((Raw(msg), id))
      else Success((ApiResponse(id, StatusOk, output, Some(usage), None, None), id))
  }

  /**
   * The state of the event loop: the records yielded so far, the running
   * request id, and the exception that ended the loop, if one did.
   */
  datatype Outcome = Outcome(replies: seq<Reply>, requestId: Value, raised: Option<Exc>)

  /** The event loop over a prefix of the stream; the request id starts empty. */
  function Fold(events: seq<SseEvent>, flattened: bool): (o: Outcome)
    ensures |o.replies| <= |events|
    ensures o.raised.None? ==> |o.replies| == |events|
    decreases |events|
  {
    if |events| == 0 then Outcome([], Str(""), None)
    else
      var before := Fold(events[..|events| - 1], flattened);
      if before.raised.Some? then before
      else
        match Convert(events[|events| - 1], before.requestId, flattened)
        case Failure(e) => before.(raised := Some(e))
        case Success(step) => Outcome(before.replies + [step.0], step.1, None)
  }

  /** An exception ends the loop: later events change nothing. */
  lemma {:induction false} FoldStopsAtRaise(events: seq<SseEvent>, j: nat, flattened: bool)
    requires j <= |events|
    requires Fold(events[..j], flattened).raised.Some?
    ensures Fold(events, flattened) == Fold(events[..j], flattened)
    decreases |events|
  {
    if j == |events| {
      assert events[..j] == events;
    } else {
      var n := |events| - 1;
      assert events[..n][..j] == events[..j];
      FoldStopsAtRaise(events[..n], j, flattened);
    }
  }

  /** The request id declared by the last event, among `events`, that declares one; else empty. */
  function LastRequestId(events: seq<SseEvent>): Value
    decreases |events|
  {
    if |events| == 0 then Str("")
    else
      var e := events[|events| - 1];
      if e.decoded.Some? && e.decoded.value.Obj? && "request_id" in e.decoded.value.fields
      then e.decoded.value.fields["request_id"]
      else LastRequestId(events[..|events| - 1])
  }

  /** One more event, when the loop has raised nothing. */
  lemma FoldSnoc(events: seq<SseEvent>, flattened: bool)
    requires |events| > 0
    requires Fold(events, flattened).raised.None?
    ensures var before := Fold(events[..|events| - 1], flattened);
            var step := Convert(events[|events| - 1], before.requestId, flattened);
            before.raised.None? && step.Success? &&
            Fold(events, flattened) == Outcome(before.replies + [step.value.0], step.value.1, None)
  {
  }

  /** The records of a prefix of the stream are a prefix of the records. */
  lemma {:induction false} FoldPrefix(events: seq<SseEvent>, j: nat, flattened: bool)
    requires j <= |events|
    requires Fold(events, flattened).raised.None?
    ensures Fold(events[..j], flattened).raised.None?
    ensures Fold(events[..j], flattened).replies == Fold(events, flattened).replies[..j]
    decreases |events|
  {
    if j == |events| {
      assert events[..j] == events;
    } else {
      var n := |events| - 1;
      FoldSnoc(events, flattened);
      FoldPrefix(events[..n], j, flattened);
      assert events[..n][..j] == events[..j];
    }
  }

  /**
   * Carry-over: while no exception is raised, the running request id is the
   * one the last event that had one declared.
   */
  lemma {:induction false} FoldRequestId(events: seq<SseEvent>, flattened: bool)
    requires Fold(events, flattened).raised.None?
    ensures Fold(events, flattened).requestId == LastRequestId(events)
    decreases |events|
  {
    if |events| > 0 {
      FoldSnoc(events, flattened);
      FoldRequestId(events[..|events| - 1], flattened);
    }
  }

  /** Each record is built from its own event and the request id of the events before it. */
  lemma FoldReplyAt(events: seq<SseEvent>, flattened: bool, i: nat)
    requires Fold(events, flattened).raised.None?
    requires i < |events|
    ensures Convert(events[i], LastRequestId(events[..i]), flattened).Success?
    ensures Fold(events, flattened).replies[i] == Convert(events[i], LastRequestId(events[..i]), flattened).value.0
  {
    FoldPrefix(events, i + 1, flattened);
    var prefix := events[..i + 1];
    assert prefix[..i] == events[..i] && prefix[i] == events[i];
    FoldSnoc(prefix, flattened);
    FoldRequestId(events[..i], flattened);
  }

  /**
   * Every record of a loop that raised nothing carries the request id in
   * force at its event: the event's own when it declares one.
   */
  lemma RepliesCarryRequestId(events: seq<SseEvent>, flattened: bool, i: nat)
    requires Fold(events, flattened).raised.None?
    requires i < |events|
    requires Fold(events, flattened).replies[i].ApiResponse?
    ensures Fold(events, flattened).replies[i].requestId == LastRequestId(events[..i + 1])
  {
    FoldReplyAt(events, flattened, i);
    assert events[..i + 1][..i] == events[..i];
  }

  /** `{'task_id': content['task_id']}`. */
  function TaskOnly(content: Value): (r: Result<Value, Exc>)
    ensures content.Obj? && "task_id" in content.fields ==> r == Success(Obj(map["task_id" := content.fields["task_id"]]))
  {
    var t :- GetItem(content, "task_id");
    Success(Obj(map["task_id" := t]))
  }

  /** The result of a non-streaming OK response, whose body is one JSON value. */
  function JsonReply(content: Value, flattened: bool): (r: Result<Reply, Exc>)
    ensures flattened && r.Success? ==> r.value == Raw(content)
    ensures content.Obj? ==> r.Success?
    ensures content.Obj? && !flattened ==>
              var f := content.fields;
              r.value == ApiResponse(if "request_id" in f then f["request_id"] else Str(""), StatusOk,
                                     if "output" in f then f["output"]
                                     else if "task_id" in f then Obj(map["task_id" := f["task_id"]]) else Null,
                                     Some(if "usage" in f then f["usage"] else Null), None, None)
  {
    var hasTask :- Contains(content, "task_id");
    if hasTask && TaskOnly(content).Failure? then Failure(TaskOnly(content).error)
    else
    var taskOutput := if hasTask then TaskOnly(content).value else Null;
    // the probe for 'task_id' succeeded, so `content` is a container and this one cannot raise
    var hasOutput := Contains(content, "output").value;
    var output :- if hasOutput then GetItem(content, "output") else Success(taskOutput);
    var usage :- Member(content, "usage");
    var id :- NextRequestId(content, Str(""));
    if flattened then Success(Raw(content)) else Success(ApiResponse(id, StatusOk, output, Some(usage), None, None))
  }

  /** How a response is read: as an event stream, as one JSON body, or as a failure. */
  datatype Branch = EventStream | JsonBody | Failed

  function ResponseBranch(c: Constants, statusCode: int, stream: bool, contentType: Option<string>): (b: Branch)
    ensures b == EventStream <==> statusCode == StatusOk && stream && HasSubstring(contentType.GetOr(""), c.sseContentType)
    ensures b == Failed <==> statusCode != StatusOk
  {
    if statusCode == StatusOk && stream && HasSubstring(contentType.GetOr(""), c.sseContentType) then EventStream
    else if statusCode == StatusOk then JsonBody
    else Failed
  }

  // ---------------------------------------------------------------------
  // The request object
  // ---------------------------------------------------------------------

  class HttpRequest {
    var url: string
    var flattenedOutput: bool
    var asyncRequest: bool
    var headers: map<string, string>
    var query: bool
    var httpMethod: string
    var stream: bool
    var timeout: int

    /** `baseHeaders` are the headers the base class set up before this constructor runs. */
    constructor(c: Constants, baseHeaders: map<string, string>, url: string, apiKey: string, httpMethod: string,
                stream: bool, asyncRequest: bool, query: bool, timeout: Option<int>, taskId: Option<string>,
                flattenedOutput: bool)
      ensures this.headers == InitialHeaders(c, baseHeaders, apiKey, httpMethod, stream, asyncRequest, query)
      ensures this.url == TaskUrl(url, query, taskId)
      ensures this.timeout == EffectiveTimeout(c, timeout)
      ensures this.flattenedOutput == flattenedOutput && this.asyncRequest == asyncRequest
      ensures this.query == query && this.httpMethod == httpMethod && this.stream == stream
    {
      this.url := url;
      this.flattenedOutput := flattenedOutput;
      this.asyncRequest := asyncRequest;
      var h := map["Accept" := "application/json", "Authorization" := "Bearer " + apiKey] + baseHeaders;
      this.query := query;
      if asyncRequest && !query {
        h := h["X-DashScope-Async" := "enable"];
      }
      this.httpMethod := httpMethod;
      if httpMethod == c.post {
        h := h["Content-Type" := "application/json"];
      }
      this.stream := stream;
      if stream {
        h := h + map["Accept" := c.sseContentType, "X-Accel-Buffering" := "no", "X-DashScope-SSE" := "enable"];
      }
      assert h == InitialHeaders(c, baseHeaders, apiKey, httpMethod, stream, asyncRequest, query);
      this.headers := h;
      if query && taskId.Some? && taskId.value != "" {
        this.url := ToTaskApi(url) + taskId.value;
      }
      this.timeout := if timeout.Some? && timeout.value != 0 then timeout.value else c.defaultTimeout;
    }

    /** Sets one header; every other header and field is kept. */
    method AddHeader(key: string, value: string)
      modifies this
      ensures headers == old(headers)[key := value]
      ensures url == old(url) && timeout == old(timeout) && stream == old(stream) &&
              flattenedOutput == old(flattenedOutput) && query == old(query) &&
              asyncRequest == old(asyncRequest) && httpMethod == old(httpMethod)
    {
      headers := headers[key := value];
    }

    /** Merges headers in; the new ones win on a clash. */
    method AddHeaders(newHeaders: map<string, string>)
      modifies this
      ensures headers == old(headers) + newHeaders
      ensures forall k :: k in headers <==> k in old(headers) || k in newHeaders
      ensures forall k :: k in newHeaders ==> headers[k] == newHeaders[k]
      ensures forall k :: k in old(headers) && k !in newHeaders ==> headers[k] == old(headers)[k]
      ensures url == old(url) && timeout == old(timeout) && stream == old(stream) &&
              flattenedOutput == old(flattenedOutput) && query == old(query) &&
              asyncRequest == old(asyncRequest) && httpMethod == old(httpMethod)
    {
      headers := headers + newHeaders;
    }

    /**
     * The loop over the events of a streamed response: the records yielded
     * before an exception, and the exception, if one ended the loop.
     */
    method HandleStream(events: seq<SseEvent>) returns (replies: seq<Reply>, raised: Option<Exc>)
      ensures replies == Fold(events, flattenedOutput).replies
      ensures raised == Fold(events, flattenedOutput).raised
    {
      var requestId := Str("");
      replies := [];
      raised := None;
      var i := 0;
      while i < |events|
        invariant 0 <= i <= |events|
        invariant Fold(events[..i], flattenedOutput) == Outcome(replies, requestId, None)
      {
        assert events[..i + 1][..i] == events[..i];
        var step := Convert(events[i], requestId, flattenedOutput);
        if step.Failure? {
          raised := Some(step.error);
          FoldStopsAtRaise(events, i + 1, flattenedOutput);
          return;
        }
        replies := replies + [step.value.0];
        requestId := step.value.1;
        i := i + 1;
      }
      assert events[..i] == events;
    }
  }
}
